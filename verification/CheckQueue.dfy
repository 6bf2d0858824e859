/** The parallel check queue (src/checkqueue.h: CCheckQueue, CCheckQueueControl) as a
    state machine. One step is what a thread does while it holds the mutex once, or one
    check executed outside of it. Thread 0 is the master, all others are workers. */
module CheckQueue {

  /** A verification; `good` is what its operator() returns. */
  datatype Check = Check(id: nat, good: bool)

  datatype Thread =
    | Outside                                                       // not in Loop
    | Asleep(notified: bool)                                        // in cond.wait
    | Working(batch: seq<Check>, next: nat, ran: nat, fOk: bool)    // `ran` of the first `next` were executed

  /** What one Wait of the master returned, and what happened to the checks it waited for. */
  datatype Round = Round(result: bool, added: multiset<Check>, finished: multiset<Check>, executed: multiset<Check>)

  /** The fields of CCheckQueue and the threads; then the history: the checks added since
      the last Wait returned, those in batches that are finished, and those executed in them. */
  datatype State = State(
    queue: seq<Check>, nIdle: int, nTotal: int, fAllOk: bool, nTodo: int, nBatchSize: nat,
    threads: seq<Thread>,
    added: multiset<Check>, finished: multiset<Check>, executed: multiset<Check>, rounds: seq<Round>)

  datatype Event =
    | Add(checks: seq<Check>, waked: nat)   // notify_one wakes thread `waked`, if it sleeps
    | Enter(i: nat)                         // first critical section of Loop
    | Execute(i: nat)                       // one check of the batch
    | Finish(i: nat)                        // critical section after a batch
    | Wake(i: nat)                          // back from cond.wait, notified or not

  // ---------------------------------------------------------------- steps

  function Max(a: int, b: int): int { if a > b then a else b }
  function Min(a: int, b: int): int { if a < b then a else b }

  /** nNow; the divisor is positive in every reachable state. */
  function BatchSize(s: State): (n: int)
    ensures n >= 1 && (|s.queue| > 0 ==> n <= |s.queue|)
  {
    var workers := s.nTotal + s.nIdle + 1;
    if workers <= 0 then 1
    else
      QuotientFits(|s.queue|, workers);
      Max(1, Min(s.nBatchSize, |s.queue| / workers))
  }

  lemma QuotientFits(a: nat, b: int)
    requires b >= 1
    ensures 0 <= a / b <= a
  {
    var q := a / b;
    assert a == b * q + a % b && q >= 0;
    ProductFits(q, b);
  }

  lemma {:induction false} ProductFits(q: nat, b: int)
    requires b >= 1
    ensures b * q >= q
  {
    if q > 0 {
      ProductFits(q - 1, b);
      assert b * q == b * (q - 1) + b;
    }
  }

  function Reverse<T>(v: seq<T>): (r: seq<T>)
    ensures |r| == |v|
  {
    seq(|v|, i requires 0 <= i < |v| => v[|v| - 1 - i])
  }

  /** From `while (queue.empty())` on, still under the mutex. */
  function Proceed(s: State, i: nat): State
    requires i < |s.threads|
  {
    if s.queue == [] then
      if i == 0 && s.nTodo == 0 then
        s.(nTotal := s.nTotal - 1, fAllOk := true, threads := s.threads[i := Outside],
           added := multiset{}, finished := multiset{}, executed := multiset{},
           rounds := s.rounds + [Round(s.fAllOk, s.added, s.finished, s.executed)])
      else
        s.(nIdle := s.nIdle + 1, threads := s.threads[i := Asleep(false)])
    else
      TakeBatch(s, i, BatchSize(s))
  }

  /** Move `nNow` checks from the back of the queue to the batch of thread `i`. */
  function TakeBatch(s: State, i: nat, nNow: nat): State
    requires i < |s.threads| && nNow <= |s.queue|
  {
    var rest := |s.queue| - nNow;
    s.(queue := s.queue[..rest], threads := s.threads[i := Working(Reverse(s.queue[rest..]), 0, 0, s.fAllOk)])
  }

  function WakeWorkers(ts: seq<Thread>): (r: seq<Thread>)
    ensures |r| == |ts|
  {
    seq(|ts|, i requires 0 <= i < |ts| => if i > 0 && ts[i].Asleep? then Asleep(true) else ts[i])
  }

  function NotifyMaster(ts: seq<Thread>): seq<Thread> {
    if |ts| > 0 && ts[0].Asleep? then ts[0 := Asleep(true)] else ts
  }

  predicate Enabled(s: State, e: Event) {
    match e
    case Add(_, _) => |s.threads| > 0 && s.threads[0].Outside?
    case Enter(i) => i < |s.threads| && s.threads[i].Outside?
    case Execute(i) => i < |s.threads| && s.threads[i].Working? && s.threads[i].next < |s.threads[i].batch|
    case Finish(i) => i < |s.threads| && s.threads[i].Working? && s.threads[i].next == |s.threads[i].batch|
    case Wake(i) => i < |s.threads| && s.threads[i].Asleep?
  }

  /** notify_one or notify_all on condWorker, depending on how much was added. */
  function NotifyWorkers(ts: seq<Thread>, n: nat, waked: nat): seq<Thread> {
    if n == 1 then
      if 0 < waked < |ts| && ts[waked].Asleep? then ts[waked := Asleep(true)] else ts
    else if n > 1 then WakeWorkers(ts)
    else ts
  }

  /** CCheckQueue::Add. */
  function AddChecks(s: State, checks: seq<Check>, waked: nat): State {
    s.(queue := s.queue + checks, nTodo := s.nTodo + |checks|,
       threads := NotifyWorkers(s.threads, |checks|, waked), added := s.added + multiset(checks))
  }

  function ExecuteCheck(s: State, i: nat): State
    requires Enabled(s, Execute(i))
  {
    var t := s.threads[i];
    s.(threads := s.threads[i :=
      if t.fOk then Working(t.batch, t.next + 1, t.ran + 1, t.batch[t.next].good)
      else Working(t.batch, t.next + 1, t.ran, false)])
  }

  /** The clean-up of the previous batch. */
  function CleanUp(s: State, i: nat): State
    requires Enabled(s, Finish(i))
  {
    var t := s.threads[i];
    var todo := s.nTodo - |t.batch|;
    s.(fAllOk := s.fAllOk && t.fOk, nTodo := todo,
       threads := if todo == 0 && i != 0 then NotifyMaster(s.threads) else s.threads,
       finished := s.finished + multiset(t.batch), executed := s.executed + multiset(t.batch[..Min(t.ran, |t.batch|)]))
  }

  // ---------------------------------------------------------------- sums over the threads

  datatype Sums = Sums(held: int, asleep: int, inside: int)

  function Share(t: Thread): Sums {
    match t
    case Outside => Sums(0, 0, 0)
    case Asleep(_) => Sums(0, 1, 1)
    case Working(b, _, _, _) => Sums(|b|, 0, 1)
  }

  /** How often thread `t` holds check `c`. */
  function Has(t: Thread, c: Check): nat { if t.Working? then multiset(t.batch)[c] else 0 }

  /** Checks held in batches, sleeping threads, threads inside Loop. */
  function SumOf(ts: seq<Thread>): (r: Sums)
    ensures r.held >= 0 && r.inside >= r.asleep >= 0
  {
    if ts == [] then Sums(0, 0, 0)
    else
      var a, b := SumOf(ts[..|ts| - 1]), Share(ts[|ts| - 1]);
      Sums(a.held + b.held, a.asleep + b.asleep, a.inside + b.inside)
  }

  /** How often `c` is in outstanding batches. */
  function HeldOf(ts: seq<Thread>, c: Check): nat {
    if ts == [] then 0 else HeldOf(ts[..|ts| - 1], c) + Has(ts[|ts| - 1], c)
  }

  /** Exchanging one thread's share. */
  lemma {:induction false} SumUpdate(ts: seq<Thread>, i: nat, t: Thread)
    requires i < |ts|
    ensures var a, b := SumOf(ts), SumOf(ts[i := t]);
      && b.held == a.held - Share(ts[i]).held + Share(t).held
      && b.asleep == a.asleep - Share(ts[i]).asleep + Share(t).asleep
      && b.inside == a.inside - Share(ts[i]).inside + Share(t).inside
  {
    var last := |ts| - 1;
    if i == last {
      assert ts[i := t][..last] == ts[..last];
    } else {
      assert ts[i := t][..last] == ts[..last][i := t];
      SumUpdate(ts[..last], i, t);
    }
  }

  lemma {:induction false} HeldUpdate(ts: seq<Thread>, i: nat, t: Thread, c: Check)
    requires i < |ts|
    ensures HeldOf(ts[i := t], c) == HeldOf(ts, c) - Has(ts[i], c) + Has(t, c)
  {
    var last := |ts| - 1;
    if i == last {
      assert ts[i := t][..last] == ts[..last];
    } else {
      assert ts[i := t][..last] == ts[..last][i := t];
      HeldUpdate(ts[..last], i, t, c);
    }
  }

  lemma {:induction false} WakeKeepsSums(ts: seq<Thread>, c: Check)
    ensures SumOf(WakeWorkers(ts)) == SumOf(ts) && HeldOf(WakeWorkers(ts), c) == HeldOf(ts, c)
  {
    if ts != [] {
      assert WakeWorkers(ts)[..|ts| - 1] == WakeWorkers(ts[..|ts| - 1]);
      WakeKeepsSums(ts[..|ts| - 1], c);
    }
  }

  lemma {:induction false} NobodyWorks(ts: seq<Thread>)
    requires SumOf(ts).held == 0
    requires forall i :: 0 <= i < |ts| && ts[i].Working? ==> |ts[i].batch| > 0
    ensures forall i :: 0 <= i < |ts| ==> !ts[i].Working?
  {
    if ts != [] {
      NobodyWorks(ts[..|ts| - 1]);
    }
  }

  lemma {:induction false} NobodyHolds(ts: seq<Thread>, c: Check)
    requires forall i :: 0 <= i < |ts| ==> !ts[i].Working?
    ensures HeldOf(ts, c) == 0 && WorkersBusy(ts) == 0
  {
    if ts != [] {
      NobodyHolds(ts[..|ts| - 1], c);
    }
  }

  lemma {:induction false} SomeoneWorks(ts: seq<Thread>) returns (i: nat)
    requires SumOf(ts).held > 0
    ensures i < |ts| && ts[i].Working?
  {
    i := |ts| - 1;
    if !ts[i].Working? {
      i := SomeoneWorks(ts[..|ts| - 1]);
    }
  }

  // ---------------------------------------------------------------- the invariant

  ghost predicate HasBad(m: multiset<Check>) { exists c :: c in m && !c.good }
  ghost predicate AllGood(m: multiset<Check>) { forall c :: c in m ==> c.good }

  /** Between the mutex and the next: a batch is never empty; while it is fine, all of it so
      far was executed and good; once it is not, a bad check was executed. */
  ghost predicate ThreadOk(s: State, t: Thread) {
    t.Working? ==>
      && 0 < |t.batch| && t.ran <= t.next <= |t.batch|
      && (t.fOk ==> t.ran == t.next && AllGood(multiset(t.batch[..t.ran])))
      && (!t.fOk ==> HasBad(s.executed) || HasBad(multiset(t.batch[..t.ran])))
  }

  ghost predicate RoundOk(r: Round) {
    && r.finished == r.added
    && r.executed <= r.added
    && (r.result ==> r.executed == r.added && AllGood(r.executed))
    && (!r.result ==> HasBad(r.executed))
  }

  /** The counters are what they are meant to count. */
  ghost predicate Counted(s: State) {
    var sums := SumOf(s.threads);
    && s.nTodo == |s.queue| + sums.held
    && s.nIdle == sums.asleep
    && s.nTotal == sums.inside
    && forall c :: Accounted(s, s.threads, c)
  }

  /** Each added copy of `c` is in the queue, in a batch or finished. */
  ghost predicate Accounted(s: State, ts: seq<Thread>, c: Check) {
    s.added[c] == multiset(s.queue)[c] + HeldOf(ts, c) + s.finished[c]
  }

  ghost predicate Inv(s: State) {
    && |s.threads| > 0
    && Counted(s)
    && s.executed <= s.finished
    && (s.fAllOk ==> s.executed == s.finished && AllGood(s.executed))
    && (!s.fAllOk ==> HasBad(s.executed))
    && (forall i :: 0 <= i < |s.threads| ==> ThreadOk(s, s.threads[i]))
    && (s.threads[0] == Asleep(false) ==> s.nTodo > 0 && s.queue == [])
    && (forall k :: 0 <= k < |s.rounds| ==> RoundOk(s.rounds[k]))
  }

  /** The counters, with one more thread inside than `others` shows. */
  ghost predicate CountedBut(s: State, others: seq<Thread>) {
    var sums := SumOf(others);
    && s.nTodo == |s.queue| + sums.held
    && s.nIdle == sums.asleep
    && s.nTotal == sums.inside + 1
    && forall c :: Accounted(s, others, c)
  }

  /** Inv without what is said about thread `i`, while that thread holds the mutex with no
      batch and is counted as inside but not as sleeping. */
  ghost predicate Held(s: State, i: nat) {
    && i < |s.threads|
    && CountedBut(s, s.threads[i := Outside])
    && s.executed <= s.finished
    && (s.fAllOk ==> s.executed == s.finished && AllGood(s.executed))
    && (!s.fAllOk ==> HasBad(s.executed))
    && (forall k :: 0 <= k < |s.threads| && k != i ==> ThreadOk(s, s.threads[k]))
    && (i != 0 && s.threads[0] == Asleep(false) ==> s.nTodo > 0 && s.queue == [])
    && (forall k :: 0 <= k < |s.rounds| ==> RoundOk(s.rounds[k]))
  }

  /** Releasing the mutex with a batch. */
  lemma TakesBatch(s: State, i: nat, nNow: nat)
    requires Held(s, i) && 1 <= nNow <= |s.queue|
    ensures Inv(TakeBatch(s, i, nNow))
  {
    hide RoundOk, HasBad, HeldOf, SumOf;
    var others, s' := s.threads[i := Outside], TakeBatch(s, i, nNow);
    var t := s'.threads[i];
    assert others[i := t] == s'.threads;
    SumUpdate(others, i, t);
    ReversedTail(s.queue, |s'.queue|);
    forall c ensures Accounted(s', s'.threads, c) {
      assert Accounted(s, others, c);
      HeldUpdate(others, i, t, c);
    }
    assert t.batch[..0] == [];
    forall k | 0 <= k < |s'.threads| ensures ThreadOk(s', s'.threads[k]) {
      assert k != i ==> ThreadOk(s, s.threads[k]);
    }
  }

  /** Releasing the mutex by going to sleep. */
  lemma FallsAsleep(s: State, i: nat)
    requires Held(s, i) && s.queue == [] && (i == 0 ==> s.nTodo > 0)
    ensures Inv(Proceed(s, i))
  {
    var others, s' := s.threads[i := Outside], Proceed(s, i);
    assert others[i := Asleep(false)] == s'.threads;
    SumUpdate(others, i, Asleep(false));
    forall c ensures Accounted(s', s'.threads, c) {
      assert Accounted(s, others, c);
      HeldUpdate(others, i, Asleep(false), c);
    }
    forall k | 0 <= k < |s'.threads| ensures ThreadOk(s', s'.threads[k]) {
      assert k != i ==> ThreadOk(s, s.threads[k]);
    }
  }

  /** The master leaves Wait: everything added is accounted for. */
  lemma MasterReturns(s: State)
    requires Held(s, 0) && s.queue == [] && s.nTodo == 0
    ensures Inv(Proceed(s, 0))
  {
    var others, s' := s.threads[0 := Outside], Proceed(s, 0);
    assert others == s'.threads;
    forall k | 0 <= k < |others| ensures ThreadOk(s, others[k]) {
      assert k != 0 ==> ThreadOk(s, s.threads[k]);
    }
    NobodyWorks(others);
    forall c ensures s.added[c] == s.finished[c] && HeldOf(others, c) == 0 {
      assert Accounted(s, others, c);
      NobodyHolds(others, c);
    }
    assert s.added == s.finished;
    assert RoundOk(Round(s.fAllOk, s.added, s.finished, s.executed));
  }

  lemma ProceedKeeps(s: State, i: nat)
    requires Held(s, i)
    ensures Inv(Proceed(s, i))
  {
    if s.queue != [] {
      TakesBatch(s, i, BatchSize(s));
    } else if i == 0 && s.nTodo <= 0 {
      MasterReturns(s);
    } else {
      FallsAsleep(s, i);
    }
  }

  lemma ReversedTail(q: seq<Check>, m: nat)
    requires m <= |q|
    ensures multiset(q) == multiset(q[..m]) + multiset(Reverse(q[m..]))
  {
    assert q == q[..m] + q[m..];
    ReverseMultiset(q[m..]);
  }

  lemma {:induction false} ReverseMultiset(v: seq<Check>)
    ensures multiset(Reverse(v)) == multiset(v)
  {
    if v != [] {
      ReverseMultiset(v[1..]);
      assert Reverse(v) == Reverse(v[1..]) + [v[0]];
      assert v == [v[0]] + v[1..];
    } else {
      assert Reverse(v) == v;
    }
  }

  // ---------------------------------------------------------------- every step keeps the invariant

  /** The state once thread `i` has the mutex, before `while (queue.empty())`. */
  function Acquire(s: State, e: Event): State
    requires Enabled(s, e) && !e.Add? && !e.Execute?
  {
    match e
    case Enter(i) => s.(nTotal := s.nTotal + 1)
    case Wake(i) => s.(nIdle := s.nIdle - 1)
    case Finish(i) => CleanUp(s, i)
  }

  function Step(s: State, e: Event): State
    requires Enabled(s, e)
  {
    match e
    case Add(checks, waked) => AddChecks(s, checks, waked)
    case Execute(i) => ExecuteCheck(s, i)
    case _ => Proceed(Acquire(s, e), e.i)
  }

  lemma AcquireHolds(s: State, e: Event)
    requires Inv(s) && Enabled(s, e) && !e.Add? && !e.Execute?
    ensures Held(Acquire(s, e), e.i)
  {
    var i := e.i;
    assert ThreadOk(s, s.threads[i]);
    if e.Finish? {
      FinishHolds(s, i);
    } else {
      var others := s.threads[i := Outside];
      SumUpdate(s.threads, i, Outside);
      forall c ensures Accounted(Acquire(s, e), others, c) {
        assert Accounted(s, s.threads, c);
        HeldUpdate(s.threads, i, Outside, c);
      }
      forall k | 0 <= k < |s.threads| && k != i ensures ThreadOk(Acquire(s, e), s.threads[k]) {
        assert ThreadOk(s, s.threads[k]);
      }
    }
  }

  lemma NotifyKeepsSums(ts: seq<Thread>, i: nat, c: Check)
    requires 0 < i < |ts| && ts[i].Working?
    ensures var ts' := NotifyMaster(ts);
      && |ts'| == |ts| && ts'[i] == ts[i] && ts'[0] != Asleep(false)
      && SumOf(ts'[i := Outside]) == SumOf(ts[i := Outside])
      && HeldOf(ts'[i := Outside], c) == HeldOf(ts[i := Outside], c)
  {
    var base := ts[i := Outside];
    if ts[0].Asleep? {
      assert NotifyMaster(ts)[i := Outside] == base[0 := Asleep(true)];
      SumUpdate(base, 0, Asleep(true));
      HeldUpdate(base, 0, Asleep(true), c);
    }
  }

  lemma BadStays(a: multiset<Check>, b: multiset<Check>)
    requires a <= b
    ensures HasBad(a) ==> HasBad(b)
  {
    if HasBad(a) {
      var c :| c in a && !c.good;
      assert c in b;
    }
  }

  /** Checks of a finished batch move over to the finished ones, executed or not. */
  lemma FinishCounts(s: State, i: nat)
    requires Counted(s) && Enabled(s, Finish(i)) && s.threads[i].batch != []
    ensures CountedBut(CleanUp(s, i), CleanUp(s, i).threads[i := Outside])
  {
    var t, s' := s.threads[i], CleanUp(s, i);
    SumUpdate(s.threads, i, Outside);
    if i != 0 { NotifyKeepsSums(s.threads, i, t.batch[0]); }
    var others := s'.threads[i := Outside];
    forall c ensures Accounted(s', others, c) {
      assert Accounted(s, s.threads, c);
      HeldUpdate(s.threads, i, Outside, c);
      if i != 0 { NotifyKeepsSums(s.threads, i, c); }
    }
  }

  lemma FinishResult(s: State, i: nat)
    requires Inv(s) && Enabled(s, Finish(i)) && ThreadOk(s, s.threads[i])
    ensures var s' := CleanUp(s, i);
      && s.executed <= s'.executed <= s'.finished
      && (s'.fAllOk ==> s'.executed == s'.finished && AllGood(s'.executed))
      && (!s'.fAllOk ==> HasBad(s'.executed))
  {
    var t, s' := s.threads[i], CleanUp(s, i);
    var part := multiset(t.batch[..t.ran]);
    assert s'.executed == s.executed + part;
    PrefixMultiset(t.batch, t.ran);
    assert t.fOk ==> t.batch[..t.ran] == t.batch;
    BadStays(s.executed, s'.executed);
    BadStays(part, s'.executed);
    assert forall c :: c in s'.executed ==> c in s.executed || c in part;
  }

  lemma FinishHolds(s: State, i: nat)
    requires Inv(s) && Enabled(s, Finish(i)) && ThreadOk(s, s.threads[i])
    ensures Held(CleanUp(s, i), i)
  {
    var s' := CleanUp(s, i);
    FinishCounts(s, i);
    FinishResult(s, i);
    BadStays(s.executed, s'.executed);
    if i != 0 { NotifyKeepsSums(s.threads, i, s.threads[i].batch[0]); }
    forall k | 0 <= k < |s'.threads| && k != i ensures ThreadOk(s', s'.threads[k]) {
      assert ThreadOk(s, s.threads[k]);
    }
  }

  lemma PrefixMultiset(v: seq<Check>, m: nat)
    requires m <= |v|
    ensures multiset(v[..m]) <= multiset(v)
  {
    assert v == v[..m] + v[m..];
  }

  lemma NotifyIsHarmless(ts: seq<Thread>, n: nat, waked: nat, c: Check)
    requires |ts| > 0
    ensures var ts' := NotifyWorkers(ts, n, waked);
      && |ts'| == |ts| && ts'[0] == ts[0]
      && SumOf(ts') == SumOf(ts) && HeldOf(ts', c) == HeldOf(ts, c)
      && forall k :: 0 <= k < |ts| ==> ts'[k] == ts[k] || ts'[k].Asleep?
  {
    if n == 1 {
      if 0 < waked < |ts| && ts[waked].Asleep? {
        SumUpdate(ts, waked, Asleep(true));
        HeldUpdate(ts, waked, Asleep(true), c);
      }
    } else if n > 1 {
      WakeKeepsSums(ts, c);
    }
  }

  lemma AddKeeps(s: State, checks: seq<Check>, waked: nat)
    requires Inv(s) && Enabled(s, Add(checks, waked))
    ensures Inv(AddChecks(s, checks, waked))
  {
    var s' := AddChecks(s, checks, waked);
    NotifyIsHarmless(s.threads, |checks|, waked, Check(0, true));
    forall c ensures Accounted(s', s'.threads, c) {
      assert Accounted(s, s.threads, c);
      NotifyIsHarmless(s.threads, |checks|, waked, c);
    }
    forall k | 0 <= k < |s'.threads| ensures ThreadOk(s', s'.threads[k]) {
      assert ThreadOk(s, s.threads[k]);
    }
  }

  /** One executed check keeps what is said about its own thread. */
  lemma ExecutedOk(s: State, i: nat)
    requires Enabled(s, Execute(i)) && ThreadOk(s, s.threads[i])
    ensures ThreadOk(ExecuteCheck(s, i), ExecuteCheck(s, i).threads[i])
  {
    var t, t' := s.threads[i], ExecuteCheck(s, i).threads[i];
    var c := t.batch[t.next];
    if t.fOk {
      assert t'.batch[..t'.ran] == t.batch[..t.ran] + [c];
      assert multiset(t'.batch[..t'.ran]) == multiset(t.batch[..t.ran]) + multiset{c};
      if !t'.fOk {
        assert c in multiset(t'.batch[..t'.ran]);
      }
    }
  }

  lemma ExecuteKeeps(s: State, i: nat)
    requires Inv(s) && Enabled(s, Execute(i))
    ensures Inv(ExecuteCheck(s, i))
  {
    var s' := ExecuteCheck(s, i);
    assert ThreadOk(s, s.threads[i]);
    ExecutedOk(s, i);
    SumUpdate(s.threads, i, s'.threads[i]);
    forall c ensures Accounted(s', s'.threads, c) {
      assert Accounted(s, s.threads, c);
      HeldUpdate(s.threads, i, s'.threads[i], c);
    }
    forall k | 0 <= k < |s'.threads| ensures ThreadOk(s', s'.threads[k]) {
      assert k != i ==> ThreadOk(s, s.threads[k]);
    }
  }

  lemma StepKeeps(s: State, e: Event)
    requires Inv(s) && Enabled(s, e)
    ensures Inv(Step(s, e))
  {
    match e
    case Add(checks, waked) => AddKeeps(s, checks, waked);
    case Execute(i) => ExecuteKeeps(s, i);
    case _ =>
      AcquireHolds(s, e);
      ProceedKeeps(Acquire(s, e), e.i);
  }

  // ---------------------------------------------------------------- whole runs

  /** CCheckQueue's constructor, with `n` threads that have not entered Loop yet. */
  function Init(n: nat, nBatchSize: nat): State {
    State([], 0, 0, true, 0, nBatchSize, seq(n, i => Outside), multiset{}, multiset{}, multiset{}, [])
  }

  /** `es` is a possible interleaving from `s` on. */
  predicate RunOk(s: State, es: seq<Event>)
    decreases |es|
  {
    es == [] || (Enabled(s, es[0]) && RunOk(Step(s, es[0]), es[1..]))
  }

  function Final(s: State, es: seq<Event>): State
    requires RunOk(s, es)
    decreases |es|
  {
    if es == [] then s else Final(Step(s, es[0]), es[1..])
  }

  /** `s` is reached from the constructor by the steps `es`, in any interleaving. */
  predicate Reaches(n: nat, nBatchSize: nat, es: seq<Event>, s: State) {
    n > 0 && RunOk(Init(n, nBatchSize), es) && s == Final(Init(n, nBatchSize), es)
  }

  lemma {:induction false} InitSums(n: nat, c: Check)
    ensures SumOf(seq(n, i => Outside)) == Sums(0, 0, 0) && HeldOf(seq(n, i => Outside), c) == 0
  {
    if n > 0 {
      assert seq(n, i => Outside)[..n - 1] == seq(n - 1, i => Outside);
      InitSums(n - 1, c);
    }
  }

  lemma {:induction false} RunKeeps(s: State, es: seq<Event>)
    requires Inv(s) && RunOk(s, es)
    ensures Inv(Final(s, es))
    decreases |es|
  {
    if es != [] {
      StepKeeps(s, es[0]);
      RunKeeps(Step(s, es[0]), es[1..]);
    }
  }

  lemma ReachableInv(n: nat, nBatchSize: nat, es: seq<Event>, s: State)
    requires Reaches(n, nBatchSize, es, s)
    ensures Inv(s)
  {
    InitSums(n, Check(0, true));
    forall c ensures Accounted(Init(n, nBatchSize), Init(n, nBatchSize).threads, c) {
      InitSums(n, c);
    }
    RunKeeps(Init(n, nBatchSize), es);
  }

  /** Whatever the interleaving, each Wait that has returned had every added check taken
      and finished exactly once, executed none twice, and returned true exactly if all
      the checks are good: true only after executing them all, false only after executing
      a bad one. */
  lemma WaitIsRight(n: nat, nBatchSize: nat, es: seq<Event>, s: State, k: nat)
    requires Reaches(n, nBatchSize, es, s) && k < |s.rounds|
    ensures var r := s.rounds[k];
      && r.finished == r.added && r.executed <= r.added
      && (r.result <==> AllGood(r.added))
      && (r.result ==> r.executed == r.added)
      && (!r.result ==> HasBad(r.executed))
  {
    ReachableInv(n, nBatchSize, es, s);
    var r := s.rounds[k];
    assert RoundOk(r);
    if !r.result {
      var c :| c in r.executed && !c.good;
      assert c in r.added;
    }
  }

  function WorkersBusy(ts: seq<Thread>): nat {
    if ts == [] then 0 else WorkersBusy(ts[..|ts| - 1]) + if ts[|ts| - 1].Working? then 1 else 0
  }

  lemma {:induction false} BusyCount(ts: seq<Thread>)
    ensures SumOf(ts).inside - SumOf(ts).asleep == WorkersBusy(ts)
  {
    if ts != [] { BusyCount(ts[..|ts| - 1]); }
  }

  /** Whenever the mutex is free, nTodo counts the queued checks and those in outstanding
      batches, and nTotal - nIdle the threads that hold a batch. */
  lemma CountersAreRight(n: nat, nBatchSize: nat, es: seq<Event>, s: State)
    requires Reaches(n, nBatchSize, es, s)
    ensures s.nTodo == |s.queue| + SumOf(s.threads).held
    ensures s.nTotal - s.nIdle == WorkersBusy(s.threads)
  {
    ReachableInv(n, nBatchSize, es, s);
    BusyCount(s.threads);
  }

  /** The three asserts of CCheckQueueControl: they hold whenever the master is outside and
      has added nothing since its last Wait. */
  lemma ControlAsserts(n: nat, nBatchSize: nat, es: seq<Event>, s: State)
    requires Reaches(n, nBatchSize, es, s) && |s.threads| > 0 && s.threads[0].Outside? && s.added == multiset{}
    ensures s.nTotal == s.nIdle && s.nTodo == 0 && s.fAllOk
  {
    ReachableInv(n, nBatchSize, es, s);
    forall c ensures multiset(s.queue)[c] == 0 && HeldOf(s.threads, c) == 0 && s.finished[c] == 0 {
      assert Accounted(s, s.threads, c);
    }
    forall k | 0 <= k < |s.threads| ensures !s.threads[k].Working? {
      assert ThreadOk(s, s.threads[k]);
      if s.threads[k].Working? {
        assert s.threads[k].batch[0] in multiset(s.threads[k].batch);
        HolderHolds(s.threads, k, s.threads[k].batch[0]);
      }
    }
    NobodyHolds(s.threads, Check(0, true));
    BusyCount(s.threads);
    HoldersBusy(s.threads);
  }

  lemma {:induction false} HolderHolds(ts: seq<Thread>, k: nat, c: Check)
    requires k < |ts|
    ensures HeldOf(ts, c) >= Has(ts[k], c)
  {
    if k < |ts| - 1 { HolderHolds(ts[..|ts| - 1], k, c); }
  }

  lemma {:induction false} HoldersBusy(ts: seq<Thread>)
    requires forall i :: 0 <= i < |ts| ==> !ts[i].Working?
    ensures SumOf(ts).held == 0
  {
    if ts != [] { HoldersBusy(ts[..|ts| - 1]); }
  }

  /** When a Wait returns, the queue is as unused as CCheckQueueControl expects it. */
  lemma WaitLeavesUnused(s: State, e: Event)
    requires Inv(s) && Enabled(s, e) && |Step(s, e).rounds| > |s.rounds|
    ensures var s' := Step(s, e);
      |s'.threads| > 0 && s'.threads[0].Outside? && s'.added == multiset{} && |s'.rounds| == |s.rounds| + 1
  {
    StepKeeps(s, e);
    match e
    case Add(_, _) =>
    case Execute(_) =>
    case _ =>
  }

  /** No lost wake-up: while the master sleeps without a notification there is work left,
      all of it in batches, and a thread holding one can take a step. */
  lemma MasterNeverStuck(n: nat, nBatchSize: nat, es: seq<Event>, s: State)
    requires Reaches(n, nBatchSize, es, s) && |s.threads| > 0 && s.threads[0] == Asleep(false)
    ensures s.nTodo > 0 && s.queue == []
    ensures exists i :: 0 < i < |s.threads| && (Enabled(s, Execute(i)) || Enabled(s, Finish(i)))
  {
    ReachableInv(n, nBatchSize, es, s);
    var i := SomeoneWorks(s.threads);
    assert ThreadOk(s, s.threads[i]);
    assert Enabled(s, Execute(i)) || Enabled(s, Finish(i));
  }

  // ---------------------------------------------------------------- workers are woken

  ghost predicate AnyActive(ts: seq<Thread>) {
    exists i :: 0 < i < |ts| && (ts[i].Working? || ts[i] == Asleep(true))
  }

  ghost predicate NoneSleeping(ts: seq<Thread>) { forall i :: 0 < i < |ts| ==> ts[i] != Asleep(false) }

  /** While a check is queued, some worker is at work or about to wake, or none sleeps at all. */
  ghost predicate Attended(s: State) { s.queue != [] ==> AnyActive(s.threads) || NoneSleeping(s.threads) }

  /** notify_one wakes a sleeping thread that was not notified yet, if there is one. */
  ghost predicate WakesOne(s: State, e: Event) {
    e.Add? && |e.checks| == 1 && !NoneSleeping(s.threads) ==>
      0 < e.waked < |s.threads| && s.threads[e.waked] == Asleep(false)
  }

  ghost predicate AllWake(s: State, es: seq<Event>)
    requires RunOk(s, es)
    decreases |es|
  {
    es == [] || (WakesOne(s, es[0]) && AllWake(Step(s, es[0]), es[1..]))
  }

  lemma ProceedLeaves(s: State, i: nat, k: nat)
    requires i < |s.threads| && k < |s.threads| && k != i
    ensures |Proceed(s, i).threads| == |s.threads| && Proceed(s, i).threads[k] == s.threads[k]
  {
    hide BatchSize, Reverse;
  }

  lemma AcquireLeaves(s: State, e: Event, k: nat)
    requires Enabled(s, e) && !e.Add? && !e.Execute? && 0 < k < |s.threads|
    ensures |Acquire(s, e).threads| == |s.threads| && Acquire(s, e).threads[k] == s.threads[k]
  {
    hide Min;
  }

  /** A step of thread `i` that does not add leaves the other workers alone. */
  lemma OthersStay(s: State, e: Event, k: nat)
    requires Enabled(s, e) && !e.Add? && !e.Execute? && 0 < k < |s.threads| && k != e.i
    ensures |Step(s, e).threads| == |s.threads| && Step(s, e).threads[k] == s.threads[k]
  {
    hide Acquire, Proceed;
    AcquireLeaves(s, e, k);
    ProceedLeaves(Acquire(s, e), e.i, k);
  }

  lemma StepAttends(s: State, e: Event)
    requires Enabled(s, e) && Attended(s) && WakesOne(s, e)
    ensures Attended(Step(s, e))
  {
    var s' := Step(s, e);
    if s'.queue != [] {
      match e
      case Add(checks, waked) =>
        if |checks| == 1 && !NoneSleeping(s.threads) { assert s'.threads[waked] == Asleep(true); }
        if |checks| == 0 { assert s.queue != []; }
      case Execute(i) =>
        if AnyActive(s.threads) {
          var k :| 0 < k < |s.threads| && (s.threads[k].Working? || s.threads[k] == Asleep(true));
          assert s'.threads[k].Working? || s'.threads[k] == Asleep(true);
        }
      case _ => MoverAttends(s, e);
    }
  }

  lemma MoverAttends(s: State, e: Event)
    requires Enabled(s, e) && Attended(s) && !e.Add? && !e.Execute? && Step(s, e).queue != []
    ensures Attended(Step(s, e))
  {
    var s', i := Step(s, e), e.i;
    assert s'.threads[i].Working?;
    if i == 0 {
      forall k | 0 < k < |s.threads| ensures |s'.threads| == |s.threads| && s'.threads[k] == s.threads[k] {
        OthersStay(s, e, k);
      }
      if AnyActive(s.threads) {
        var k :| 0 < k < |s.threads| && (s.threads[k].Working? || s.threads[k] == Asleep(true));
        assert s'.threads[k].Working? || s'.threads[k] == Asleep(true);
      }
    }
  }

  lemma {:induction false} RunAttends(s: State, es: seq<Event>)
    requires RunOk(s, es) && AllWake(s, es) && Attended(s)
    ensures Attended(Final(s, es))
    decreases |es|
  {
    if es != [] {
      StepAttends(s, es[0]);
      RunAttends(Step(s, es[0]), es[1..]);
    }
  }

  /** Nor is a wake-up of the workers lost: in every interleaving, while a check waits in the queue some
      worker has a batch or was notified, unless none of them sleeps. */
  lemma QueueIsAttended(n: nat, nBatchSize: nat, es: seq<Event>, s: State)
    requires Reaches(n, nBatchSize, es, s) && AllWake(Init(n, nBatchSize), es)
    ensures s.queue != [] ==> AnyActive(s.threads) || NoneSleeping(s.threads)
  {
    RunAttends(Init(n, nBatchSize), es);
  }

  /** A batch is at most the configured size, and leaves a share of the queue for every thread inside,
      twice for a sleeping one, but always takes one check. */
  lemma BatchIsFair(s: State)
    requires s.nTotal >= 0 && s.nIdle >= 0
    ensures BatchSize(s) == 1 || (BatchSize(s) <= s.nBatchSize && BatchSize(s) * (s.nTotal + s.nIdle + 1) <= |s.queue|)
    ensures BatchSize(s) >= s.nBatchSize || (BatchSize(s) + 1) * (s.nTotal + s.nIdle + 1) > |s.queue|
  {
    var d := s.nTotal + s.nIdle + 1;
    var q := |s.queue| / d;
    assert |s.queue| == d * q + |s.queue| % d;
    assert q * d == d * q && (q + 1) * d == d * q + d;
    if q < 1 { assert q == 0 by { QuotientFits(|s.queue|, d); } assert 2 * d >= d; }
  }
}
