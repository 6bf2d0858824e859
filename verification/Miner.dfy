/** Block assembly: dependency tracking, the selection loop and the timestamp filter
    (src/miner.cpp: CreateNewBlock; src/main.cpp: CBlock::SignBlock). */
module Miner {
  import opened Basics
  import opened Transactions
  import opened Marks
  import opened Inputs
  import opened Blocks

  /** Chain index, block files and memory pool at the time of the call. */
  datatype World = World(txdb: Index, disk: Disk, pool: map<Hash, Tx>, final: set<Hash>) {

    /** The previous transaction of `o` can be read from disk. */
    predicate Confirmed(o: OutPoint) {
      o.hash in txdb && txdb[o.hash].pos in disk && o.n < |disk[txdb[o.hash].pos].vout|
    }

    predicate Eligible(h: Hash) {
      h in pool && !pool[h].IsCoinBase() && !pool[h].IsCoinStake() && h in final
    }

    /** The unconfirmed transactions that `h` spends from. */
    function Parents(h: Hash): set<Hash>
      requires h in pool
    {
      set i | 0 <= i < |pool[h].vin| && !Confirmed(pool[h].vin[i]) :: pool[h].vin[i].hash
    }

    /** The first n inputs of `h` only. */
    function ParentsUpTo(h: Hash, n: nat): set<Hash>
      requires h in pool && n <= |pool[h].vin|
    {
      set i | 0 <= i < n && !Confirmed(pool[h].vin[i]) :: pool[h].vin[i].hash
    }

    /** Ids are pool keys, no pool transaction is in the chain already, and every input is
        confirmed or in the pool. */
    ghost predicate Ok() { forall h {:trigger OkAt(h)} :: h in pool ==> OkAt(h) }

    ghost predicate OkAt(h: Hash)
      requires h in pool
    {
      pool[h].hash == h && h !in txdb && Parents(h) <= pool.Keys
    }
  }

  // ---------------------------------------------------------------- dependencies

  /** setDependsOn, mapDependers and the ids in the priority queue. */
  datatype Sched = Sched(deps: map<Hash, set<Hash>>, dependers: map<Hash, seq<Hash>>, queue: seq<Hash>)

  /** `x` is listed among the dependers of `p`. */
  predicate Listed(s: Sched, p: Hash, x: Hash) { p in s.dependers && x in s.dependers[p] }

  /** Entry `x` of the scheduler once the transactions in `done` are in the block: it waits
      for its other parents, and has been queued if there are none. */
  ghost predicate Tracked(w: World, s: Sched, done: set<Hash>, tried: set<Hash>, x: Hash) {
    if w.Eligible(x) then
      && (x in s.queue || x in tried <==> w.Parents(x) <= done)
      && (w.Parents(x) != {} ==> x in s.deps && s.deps[x] == w.Parents(x) - done)
      && (forall p {:trigger Listed(s, p, x)} :: Listed(s, p, x) <==> p in w.Parents(x))
    else x !in s.queue && x !in tried && forall p {:trigger Listed(s, p, x)} :: !Listed(s, p, x)
  }

  ghost predicate Tracks(w: World, s: Sched, done: set<Hash>, tried: set<Hash>) {
    && (forall x {:trigger Tracked(w, s, done, tried, x)} :: Tracked(w, s, done, tried, x))
    && Distinct(s.queue) && (forall i :: 0 <= i < |s.queue| ==> s.queue[i] !in tried)
  }

  /** The scheduler while the pool is scanned: `seen` has been scanned. */
  ghost predicate Scanned(w: World, s: Sched, seen: set<Hash>, x: Hash) {
    if x in seen && w.Eligible(x) then
      && (x in s.queue <==> w.Parents(x) == {})
      && (w.Parents(x) != {} ==> x in s.deps && s.deps[x] == w.Parents(x))
      && (forall p {:trigger Listed(s, p, x)} :: Listed(s, p, x) <==> p in w.Parents(x))
    else x !in s.queue && forall p {:trigger Listed(s, p, x)} :: !Listed(s, p, x)
  }

  lemma ParentsStep(w: World, h: Hash, n: nat)
    requires h in w.pool && n < |w.pool[h].vin|
    ensures w.ParentsUpTo(h, n + 1) == w.ParentsUpTo(h, n) + if w.Confirmed(w.pool[h].vin[n]) then {}
      else {w.pool[h].vin[n].hash}
  {}

  /** The loop over the inputs of one pool transaction. */
  method ScanInputs(w: World, h: Hash, dependers0: map<Hash, seq<Hash>>)
    returns (deps: set<Hash>, dependers: map<Hash, seq<Hash>>)
    requires h in w.pool
    ensures deps == w.Parents(h)
    ensures forall p, x :: x != h ==> (Lists(dependers, p, x) <==> Lists(dependers0, p, x))
    ensures forall p :: Lists(dependers, p, h) <==> Lists(dependers0, p, h) || p in deps
  {
    var tx := w.pool[h];
    deps, dependers := {}, dependers0;
    for n := 0 to |tx.vin|
      invariant deps == w.ParentsUpTo(h, n)
      invariant forall p, x :: x != h ==> (Lists(dependers, p, x) <==> Lists(dependers0, p, x))
      invariant forall p :: Lists(dependers, p, h) <==> Lists(dependers0, p, h) || p in deps
    {
      ParentsStep(w, h, n);
      var o := tx.vin[n];
      if !w.Confirmed(o) {
        deps := deps + {o.hash};
        dependers := dependers[o.hash := (if o.hash in dependers then dependers[o.hash] else []) + [h]];
      }
    }
  }

  predicate Lists(dependers: map<Hash, seq<Hash>>, p: Hash, x: Hash) { p in dependers && x in dependers[p] }

  /** One pool transaction of the first loop of CreateNewBlock. */
  method ScanOne(w: World, s0: Sched, h: Hash, ghost seen: set<Hash>) returns (s: Sched)
    requires h in w.pool && h !in seen
    requires Distinct(s0.queue) && forall x {:trigger Scanned(w, s0, seen, x)} :: Scanned(w, s0, seen, x)
    ensures Distinct(s.queue) && forall x {:trigger Scanned(w, s, seen + {h}, x)} :: Scanned(w, s, seen + {h}, x)
  {
    s := s0;
    assert Scanned(w, s0, seen, h);
    if w.Eligible(h) {
      var deps, dependers := ScanInputs(w, h, s0.dependers);
      s := s.(dependers := dependers);
      if deps != {} {
        s := s.(deps := s.deps[h := deps]);
      } else {
        s := s.(queue := s.queue + [h]);
      }
      forall p, x ensures Listed(s, p, x) <==> Lists(dependers, p, x) {}
      forall p, x ensures Listed(s0, p, x) <==> Lists(s0.dependers, p, x) {}
    }
    ghost var seen' := seen + {h};
    forall x ensures Scanned(w, s, seen', x) {
      assert Scanned(w, s0, seen, x);
    }
  }

  /** The first loop of CreateNewBlock. */
  method Scan(w: World) returns (s: Sched)
    ensures Tracks(w, s, {}, {})
  {
    s := Sched(map[], map[], []);
    var rest := w.pool.Keys;
    ghost var seen := {};
    while rest != {}
      invariant rest <= w.pool.Keys && seen == w.pool.Keys - rest
      invariant Distinct(s.queue) && forall x {:trigger Scanned(w, s, seen, x)} :: Scanned(w, s, seen, x)
    {
      var h :| h in rest;
      s := ScanOne(w, s, h, seen);
      seen := seen + {h};
      rest := rest - {h};
    }
    forall x ensures Tracked(w, s, {}, {}, x) { assert Scanned(w, s, seen, x); }
  }

  /** Entry `x` while the dependers of `p` are released, `past` being the ones already visited. */
  ghost predicate Releasing(w: World, s: Sched, done: set<Hash>, tried: set<Hash>, p: Hash, past: seq<Hash>, x: Hash) {
    if x in past then Tracked(w, s, done + {p}, tried, x) else Tracked(w, s, done, tried, x)
  }

  function ReleaseOne(s: Sched, p: Hash, x: Hash): Sched {
    if x !in s.deps || s.deps[x] == {} then s
    else
      var left := s.deps[x] - {p};
      s.(deps := s.deps[x := left], queue := if left == {} then s.queue + [x] else s.queue)
  }

  lemma ReleaseStep(w: World, s: Sched, done: set<Hash>, tried: set<Hash>, p: Hash, past: seq<Hash>, x: Hash)
    requires p !in done && Listed(s, p, x) && Releasing(w, s, done, tried, p, past, x)
    ensures Tracked(w, ReleaseOne(s, p, x), done + {p}, tried, x)
    ensures ReleaseOne(s, p, x).queue == s.queue
      || (x !in s.queue && x !in tried && ReleaseOne(s, p, x).queue == s.queue + [x])
    ensures ReleaseOne(s, p, x).dependers == s.dependers
  {
    var s' := ReleaseOne(s, p, x);
    forall q ensures Listed(s', q, x) <==> Listed(s, q, x) {}
    assert w.Eligible(x) && p in w.Parents(x);
    assert w.Parents(x) - (done + {p}) == w.Parents(x) - done - {p};
    assert x !in past ==> !(w.Parents(x) <= done);
    assert w.Parents(x) <= done + {p} <==> w.Parents(x) - done - {p} == {};
  }

  lemma ReleaseOther(w: World, s: Sched, done: set<Hash>, tried: set<Hash>, p: Hash, x: Hash, y: Hash)
    requires y != x && Tracked(w, s, done, tried, y)
    ensures Tracked(w, ReleaseOne(s, p, x), done, tried, y)
  {
    var s' := ReleaseOne(s, p, x);
    forall q ensures Listed(s', q, y) <==> Listed(s, q, y) {}
  }

  /** Transactions that depend on the one just added go to the queue once they depend on
      no other. */
  method Release(w: World, s0: Sched, ghost done: set<Hash>, ghost tried: set<Hash>, p: Hash) returns (s: Sched)
    requires Tracks(w, s0, done, tried) && p !in done
    ensures Tracks(w, s, done + {p}, tried)
  {
    s := s0;
    var l := if p in s0.dependers then s0.dependers[p] else [];
    forall x ensures Releasing(w, s, done, tried, p, l[..0], x) { assert Tracked(w, s, done, tried, x); }
    for i := 0 to |l|
      invariant s.dependers == s0.dependers
      invariant forall x {:trigger Releasing(w, s, done, tried, p, l[..i], x)} ::
        Releasing(w, s, done, tried, p, l[..i], x)
      invariant Distinct(s.queue) && forall j :: 0 <= j < |s.queue| ==> s.queue[j] !in tried
    {
      assert Listed(s, p, l[i]) && Releasing(w, s, done, tried, p, l[..i], l[i]);
      ReleaseStep(w, s, done, tried, p, l[..i], l[i]);
      ghost var was := s;
      s := ReleaseOne(s, p, l[i]);
      assert l[..i + 1] == l[..i] + [l[i]];
      ghost var i' := i + 1;
      forall x ensures Releasing(w, s, done, tried, p, l[..i'], x) {
        assert Releasing(w, was, done, tried, p, l[..i], x);
        if x != l[i] { ReleaseOther(w, was, if x in l[..i] then done + {p} else done, tried, p, l[i], x); }
      }
    }
    ghost var done' := done + {p};
    forall x ensures Tracked(w, s, done', tried, x) {
      assert Releasing(w, s, done, tried, p, l[..|l|], x) && l[..|l|] == l;
      if x !in l { NotDepending(w, s, done, tried, p, x); }
    }
  }

  lemma NotDepending(w: World, s: Sched, done: set<Hash>, tried: set<Hash>, p: Hash, x: Hash)
    requires Tracked(w, s, done, tried, x) && !Listed(s, p, x)
    ensures Tracked(w, s, done + {p}, tried, x)
  {
    if w.Eligible(x) {
      assert p !in w.Parents(x);
      assert w.Parents(x) - (done + {p}) == w.Parents(x) - done;
      assert w.Parents(x) <= done + {p} <==> w.Parents(x) <= done;
    }
  }

  /** Take an entry off the queue; whatever the priorities are, it is one of the queued ones. */
  method Pop(w: World, s0: Sched, ghost done: set<Hash>, ghost tried: set<Hash>) returns (h: Hash, s: Sched)
    requires Tracks(w, s0, done, tried) && s0.queue != []
    ensures Tracks(w, s, done, tried + {h}) && h !in tried && w.Eligible(h) && w.Parents(h) <= done
  {
    var i: nat :| i < |s0.queue|;
    h := s0.queue[i];
    s := s0.(queue := s0.queue[..i] + s0.queue[i + 1..]);
    assert Tracked(w, s0, done, tried, h);
    ghost var tried' := tried + {h};
    forall x ensures Tracked(w, s, done, tried', x) {
      assert Tracked(w, s0, done, tried, x);
      RemovedOne(s0.queue, i, x);
      forall p ensures Listed(s, p, x) <==> Listed(s0, p, x) {}
    }
    forall j | 0 <= j < |s.queue| ensures s.queue[j] !in tried' {
      assert s.queue[j] == s0.queue[if j < i then j else j + 1];
    }
  }

  lemma RemovedOne(q: seq<Hash>, i: nat, x: Hash)
    requires Distinct(q) && i < |q|
    ensures x in q[..i] + q[i + 1..] <==> x in q && x != q[i]
  {
    var r := q[..i] + q[i + 1..];
    if x in q && x != q[i] {
      var j :| 0 <= j < |q| && q[j] == x;
      assert r[if j < i then j else j - 1] == x;
    }
  }

  // ---------------------------------------------------------------- selection

  /** What a candidate is measured against. Fee rates and priorities are doubles in the
      source; only the outcome of their comparisons is kept. */
  datatype Limits = Limits(
    nBlockMaxSize: nat, nBlockPrioritySize: nat, nBlockMinSize: nat,
    fProofOfStake: bool, coinbaseTime: int, nAdjustedTime: int,
    lowFee: set<Hash>,                // dFeePerKb < nMinTxFee
    lowPriority: set<Hash>,           // dPriority < COIN * 144 / 250
    minFee: (Tx, nat) -> int,         // GetMinFee(nBlockSize, GMF_BLOCK)
    rules: Rules)

  datatype Totals = Totals(nBlockSize: nat, nBlockSigOps: nat, nFees: int, fSortedByFee: bool)

  /** `tx` connects on top of `view`. */
  ghost predicate Fits(w: World, rules: Rules, view: Index, tx: Tx) {
    && !tx.IsCoinBase() && At(view, w.disk, w.pool).AllFetchable(tx.vin)
    && InputsOk(rules, InputsAt(At(view, w.disk, w.pool), tx.vin), tx)
  }

  /** Every transaction connects on top of the chain and the ones before it. */
  ghost predicate Mined(w: World, rules: Rules, ts: seq<Stored>) {
    ts == [] || (
      var init, t := ts[..|ts| - 1], ts[|ts| - 1];
      && Mined(w, rules, init) && Fits(w, rules, ConnectAll(w.txdb, init), t.tx)
      && t.pos == MEMPOOL_POS && w.Eligible(t.tx.hash) && w.pool[t.tx.hash] == t.tx)
  }

  predicate TimeOk(l: Limits, tx: Tx) {
    tx.nTime <= l.nAdjustedTime && (l.fProofOfStake ==> tx.nTime <= l.coinbaseTime)
  }

  /** The totals after `tx` on top of `view`. */
  ghost predicate Counted(w: World, l: Limits, view: Index, tx: Tx, t: Totals, t': Totals) {
    var inputs := InputsAt(At(view, w.disk, w.pool), tx.vin);
    && t'.nBlockSize == t.nBlockSize + tx.nSize < l.nBlockMaxSize
    && t'.nBlockSigOps == t.nBlockSigOps + l.rules.sigOps(tx) + l.rules.p2shSigOps(tx, inputs) < MAX_BLOCK_SIGOPS
    && t'.nFees == t.nFees + InputSum(inputs, tx.vin) - ValueOut(tx.vout)
  }

  /** The candidate is one to include: it keeps the limits of size, time and signature operations,
      is not skipped as a free one, pays the fee and connects on top of `view`. */
  ghost predicate Worth(w: World, l: Limits, view: Index, t: Totals, tx: Tx) {
    && t.nBlockSize + tx.nSize < l.nBlockMaxSize && TimeOk(l, tx)
    && !(t.fSortedByFee && tx.hash in l.lowFee && t.nBlockSize + tx.nSize >= l.nBlockMinSize)
    && Pays(w, l, view, t, tx)
  }

  ghost predicate Pays(w: World, l: Limits, view: Index, t: Totals, tx: Tx) {
    var inputs := InputsAt(At(view, w.disk, w.pool), tx.vin);
    && Fits(w, l.rules, view, tx)
    && InputSum(inputs, tx.vin) - ValueOut(tx.vout) >= l.minFee(tx, t.nBlockSize)
    && t.nBlockSigOps + l.rules.sigOps(tx) + l.rules.p2shSigOps(tx, inputs) < MAX_BLOCK_SIGOPS
  }

  /** The candidate makes the queue be sorted by fee from now on. */
  predicate Turns(l: Limits, t: Totals, tx: Tx) {
    && !t.fSortedByFee && TimeOk(l, tx)
    && t.nBlockSize + tx.nSize < l.nBlockMaxSize && t.nBlockSigOps + l.rules.sigOps(tx) < MAX_BLOCK_SIGOPS
    && (t.nBlockSize + tx.nSize >= l.nBlockPrioritySize || tx.hash in l.lowPriority)
  }

  /** One round of the selection loop, for the candidate taken off the queue. */
  method TryAdd(w: World, l: Limits, testPool0: Index, t0: Totals, tx: Tx)
    returns (added: bool, testPool: Index, t: Totals)
    requires !tx.IsCoinBase()
    ensures added <==> Worth(w, l, w.txdb + testPool0, t0, tx)
    ensures added ==> w.txdb + testPool == Connect(w.txdb + testPool0, Stored(tx, MEMPOOL_POS))
    ensures added ==> Counted(w, l, w.txdb + testPool0, tx, t0, t)
    ensures !added ==> testPool == testPool0 && t == t0.(fSortedByFee := t.fSortedByFee)
    ensures t.fSortedByFee <==> t0.fSortedByFee || Turns(l, t0, tx)
  {
    added, testPool, t := false, testPool0, t0;
    if t.nBlockSize + tx.nSize >= l.nBlockMaxSize || t.nBlockSigOps + l.rules.sigOps(tx) >= MAX_BLOCK_SIGOPS
      || !TimeOk(l, tx) {
      return;
    }
    if t.fSortedByFee && tx.hash in l.lowFee && t.nBlockSize + tx.nSize >= l.nBlockMinSize {
      return;
    }
    if !t.fSortedByFee && (t.nBlockSize + tx.nSize >= l.nBlockPrioritySize || tx.hash in l.lowPriority) {
      t := t.(fSortedByFee := true);
    }
    added, testPool, t := TryConnect(w, l, testPool0, t, tx);
  }

  /** The rest of a round: fetch the inputs, check fee and signature operations, connect. */
  method TryConnect(w: World, l: Limits, testPool0: Index, t0: Totals, tx: Tx)
    returns (added: bool, testPool: Index, t: Totals)
    requires !tx.IsCoinBase() && t0.nBlockSize + tx.nSize < l.nBlockMaxSize
    ensures added <==> Pays(w, l, w.txdb + testPool0, t0, tx)
    ensures added ==> w.txdb + testPool == Connect(w.txdb + testPool0, Stored(tx, MEMPOOL_POS))
    ensures added ==> Counted(w, l, w.txdb + testPool0, tx, t0, t) && t.fSortedByFee == t0.fSortedByFee
    ensures !added ==> testPool == testPool0 && t == t0
  {
    added, testPool, t := false, testPool0, t0;
    var src := Source(w.txdb, testPool0, true, w.disk, w.pool);
    SameSource(src, w.txdb + testPool0, tx.vin);
    var fetched, inputs := FetchInputs(src, tx);
    if !fetched {
      return;
    }
    FetchedIs(src, w.txdb + testPool0, tx.vin, inputs);
    var nTxFees := InputSum(inputs, tx.vin) - ValueOut(tx.vout);
    var nTxSigOps := l.rules.sigOps(tx) + l.rules.p2shSigOps(tx, inputs);
    if nTxFees < l.minFee(tx, t.nBlockSize) || t.nBlockSigOps + nTxSigOps >= MAX_BLOCK_SIGOPS {
      return;
    }
    var connected, tmp := ConnectInputs(l.rules, inputs, testPool0, tx, MEMPOOL_POS, true);
    if !connected {
      return;
    }
    Overlaid(w, testPool0, tmp, tx, inputs);
    testPool := tmp[tx.hash := TxIndex(MEMPOOL_POS, Nulls(|tx.vout|))];
    t := Totals(t.nBlockSize + tx.nSize, t.nBlockSigOps + nTxSigOps, t.nFees + nTxFees, t.fSortedByFee);
    added := true;
  }

  lemma Overlaid(w: World, testPool0: Index, tmp: Index, tx: Tx, inputs: PrevMap)
    requires !tx.IsCoinBase() && At(w.txdb + testPool0, w.disk, w.pool).AllFetchable(tx.vin)
    requires inputs == InputsAt(At(w.txdb + testPool0, w.disk, w.pool), tx.vin)
    requires tmp == testPool0 + MarkAll(Indices(inputs), tx.vin, MEMPOOL_POS)
    ensures w.txdb + tmp[tx.hash := TxIndex(MEMPOOL_POS, Nulls(|tx.vout|))]
      == Connect(w.txdb + testPool0, Stored(tx, MEMPOOL_POS))
  {
    MarkedThroughQueue(w.txdb, testPool0, w.disk, w.pool, tx.vin, MEMPOOL_POS);
    Overlay(w.txdb, tmp, tx.hash, TxIndex(MEMPOOL_POS, Nulls(|tx.vout|)));
  }

  // ---------------------------------------------------------------- what a mined list is

  /** The previous transaction itself, wherever it is. */
  function PrevOf(w: World, h: Hash): Option<Tx> {
    if h in w.pool then Some(w.pool[h])
    else if h in w.txdb && w.txdb[h].pos in w.disk then Some(w.disk[w.txdb[h].pos])
    else None
  }

  function InSum(w: World, vin: seq<OutPoint>): int {
    if vin == [] then 0
    else
      var o := vin[|vin| - 1];
      var p := PrevOf(w, o.hash);
      InSum(w, vin[..|vin| - 1]) + if p.Some? && o.n < |p.value.vout| then p.value.vout[o.n].nValue else 0
  }

  function FeesOf(w: World, ts: seq<Stored>): int {
    if ts == [] then 0
    else FeesOf(w, ts[..|ts| - 1]) + InSum(w, ts[|ts| - 1].tx.vin) - ValueOut(ts[|ts| - 1].tx.vout)
  }

  function SizeOf(ts: seq<Stored>): nat {
    if ts == [] then 0 else SizeOf(ts[..|ts| - 1]) + ts[|ts| - 1].tx.nSize
  }

  /** The chain data the miner relies on. */
  ghost predicate Sound(w: World) {
    w.Ok() && WellFormed(w.txdb, w.disk) && GoodDisk(w.disk)
  }

  lemma {:induction false} MinedIds(w: World, rules: Rules, ts: seq<Stored>)
    requires Sound(w) && Mined(w, rules, ts)
    ensures Ids(ts) <= w.pool.Keys && ConnectAll(w.txdb, ts).Keys == w.txdb.Keys + Ids(ts)
    ensures forall h :: h in Ids(ts) ==> ConnectAll(w.txdb, ts)[h].pos == MEMPOOL_POS
    ensures forall h :: h in w.txdb ==> ConnectAll(w.txdb, ts)[h].pos == w.txdb[h].pos
  {
    ConnectAllKeys(w.txdb, ts);
    if ts != [] {
      IdsSnoc(ts);
      MinedIds(w, rules, ts[..|ts| - 1]);
      assert w.OkAt(ts[|ts| - 1].tx.hash);
    }
  }

  /** The view leads every input to the transaction it really spends from. */
  lemma MinedLookup(w: World, rules: Rules, ts: seq<Stored>, h: Hash)
    requires Sound(w) && Mined(w, rules, ts)
    ensures var r := At(ConnectAll(w.txdb, ts), w.disk, w.pool).Lookup(h);
      r.Some? ==> (h in w.txdb || h in Ids(ts)) && PrevOf(w, h) == Some(r.value.tx)
  {
    var src := At(ConnectAll(w.txdb, ts), w.disk, w.pool);
    assert src.View() == ConnectAll(w.txdb, ts);
    MinedIds(w, rules, ts);
    if h in w.pool { assert w.OkAt(h); }
  }

  lemma {:induction false} MinedSum(w: World, rules: Rules, ts: seq<Stored>, all: seq<OutPoint>, vin: seq<OutPoint>)
    requires Sound(w) && Mined(w, rules, ts) && At(ConnectAll(w.txdb, ts), w.disk, w.pool).AllFetchable(all)
    requires forall o :: o in vin ==> o in all
    ensures InputSum(InputsAt(At(ConnectAll(w.txdb, ts), w.disk, w.pool), all), vin) == InSum(w, vin)
  {
    if vin != [] {
      var src := At(ConnectAll(w.txdb, ts), w.disk, w.pool);
      MinedSum(w, rules, ts, all, vin[..|vin| - 1]);
      var o := vin[|vin| - 1];
      assert o in all;
      var i :| 0 <= i < |all| && all[i] == o;
      assert all[i].hash in Hashes(all) && src.Fetchable(all[i]);
      MinedLookup(w, rules, ts, o.hash);
    }
  }

  lemma {:induction false} MinedAt(w: World, rules: Rules, ts: seq<Stored>, k: nat)
    requires Mined(w, rules, ts) && k < |ts|
    ensures Mined(w, rules, ts[..k]) && Mined(w, rules, ts[..k + 1])
      && Fits(w, rules, ConnectAll(w.txdb, ts[..k]), ts[k].tx)
    ensures ts[k].pos == MEMPOOL_POS && w.Eligible(ts[k].tx.hash) && w.pool[ts[k].tx.hash] == ts[k].tx
    decreases |ts|
  {
    hide Fits, ConnectAll;
    if k < |ts| - 1 {
      var init := ts[..|ts| - 1];
      MinedAt(w, rules, init, k);
      assert init[..k] == ts[..k] && init[..k + 1] == ts[..k + 1];
    } else {
      assert ts[..k + 1] == ts;
    }
  }

  /** Only final pool transactions are mined, and no coinbase or coinstake. */
  lemma MinedAreFinal(w: World, rules: Rules, ts: seq<Stored>, k: nat)
    requires Mined(w, rules, ts) && k < |ts|
    ensures var tx := ts[k].tx;
      tx.hash in w.final && tx.hash in w.pool && w.pool[tx.hash] == tx && !tx.IsCoinBase() && !tx.IsCoinStake()
  {
    MinedAt(w, rules, ts, k);
  }

  /** Every mined transaction spends what it creates and its fee. */
  lemma MinedPays(w: World, rules: Rules, ts: seq<Stored>, k: nat)
    requires Sound(w) && Mined(w, rules, ts) && k < |ts|
    ensures InSum(w, ts[k].tx.vin) >= ValueOut(ts[k].tx.vout)
    ensures InSum(w, ts[k].tx.vin) >= ValueOut(ts[k].tx.vout) + rules.minFee(ts[k].tx)
  {
    MinedAt(w, rules, ts, k);
    MinedSum(w, rules, ts[..k], ts[k].tx.vin, ts[k].tx.vin);
  }

  /** The fees that the coinbase will claim are never negative. */
  lemma {:induction false} FeesAreEarned(w: World, rules: Rules, ts: seq<Stored>)
    requires Sound(w) && Mined(w, rules, ts)
    ensures FeesOf(w, ts) >= 0
  {
    if ts != [] {
      FeesAreEarned(w, rules, ts[..|ts| - 1]);
      MinedPays(w, rules, ts, |ts| - 1);
    }
  }

  /** Every input is an output of the chain or of an earlier transaction of the block. */
  lemma ParentsFirst(w: World, rules: Rules, ts: seq<Stored>, k: nat, o: OutPoint)
    requires Sound(w) && Mined(w, rules, ts) && k < |ts| && o in ts[k].tx.vin
    ensures o.hash in w.txdb || exists j :: 0 <= j < k && ts[j].tx.hash == o.hash && o.n < |ts[j].tx.vout|
  {
    MinedAt(w, rules, ts, k);
    var i :| 0 <= i < |ts[k].tx.vin| && ts[k].tx.vin[i] == o;
    var src := At(ConnectAll(w.txdb, ts[..k]), w.disk, w.pool);
    assert src.Fetchable(ts[k].tx.vin[i]);
    MinedLookup(w, rules, ts[..k], o.hash);
    if o.hash !in w.txdb {
      var j :| 0 <= j < k && ts[..k][j].tx.hash == o.hash;
      MinedAt(w, rules, ts, j);
      assert ts[j].tx.hash == o.hash;
    }
  }

  lemma MinedSpendable(w: World, rules: Rules, ts: seq<Stored>, k: nat)
    requires Mined(w, rules, ts) && k < |ts|
    ensures Spendable(ConnectAll(w.txdb, ts[..k]), ts[k].tx)
  {
    MinedAt(w, rules, ts, k);
    var view, tx := ConnectAll(w.txdb, ts[..k]), ts[k].tx;
    IndicesAt(view, w.disk, w.pool, tx.vin);
    SpendableAt(view, Indices(InputsAt(At(view, w.disk, w.pool), tx.vin)), tx);
  }

  lemma MarkAfter(view: Index, t: Stored, o: OutPoint)
    requires InRange(view, o) && o.hash != t.tx.hash && t.pos != NullPos
    requires o in t.tx.Spends() || !Unspent(view, o)
    ensures InRange(Connect(view, t), o) && !Unspent(Connect(view, t), o)
  {
    assert OutPoint(o.hash, o.n) == o;
  }

  lemma OtherId(w: World, rules: Rules, ts: seq<Stored>, i: nat, j: nat, o: OutPoint)
    requires Sound(w) && Mined(w, rules, ts) && DistinctIds(ts) && i <= j < |ts| && o in ts[i].tx.vin
    ensures o.hash != ts[j].tx.hash
  {
    ParentsFirst(w, rules, ts, i, o);
    MinedAt(w, rules, ts, j);
    assert w.OkAt(ts[j].tx.hash);
  }

  lemma MarkNext(idx: Index, ts: seq<Stored>, k: nat, o: OutPoint)
    requires k < |ts| && InRange(ConnectAll(idx, ts[..k]), o) && o.hash != ts[k].tx.hash && ts[k].pos != NullPos
    requires o in ts[k].tx.Spends() || !Unspent(ConnectAll(idx, ts[..k]), o)
    ensures InRange(ConnectAll(idx, ts[..k + 1]), o) && !Unspent(ConnectAll(idx, ts[..k + 1]), o)
  {
    ConnectStep(idx, ts, k);
    MarkAfter(ConnectAll(idx, ts[..k]), ts[k], o);
  }

  /** An output spent by transaction `i` stays marked. */
  lemma {:induction false} MarkRemains(w: World, rules: Rules, ts: seq<Stored>, i: nat, k: nat, o: OutPoint)
    requires Sound(w) && Mined(w, rules, ts) && DistinctIds(ts) && i <= k < |ts| && o in ts[i].tx.vin
    ensures InRange(ConnectAll(w.txdb, ts[..k + 1]), o) && !Unspent(ConnectAll(w.txdb, ts[..k + 1]), o)
    decreases k
  {
    if i == k {
      MinedSpendable(w, rules, ts, i);
      MinedAt(w, rules, ts, k);
      assert Unspent(ConnectAll(w.txdb, ts[..i]), o);
    } else {
      MarkRemains(w, rules, ts, i, k - 1, o);
      MinedAt(w, rules, ts, k);
    }
    OtherId(w, rules, ts, i, k, o);
    MarkNext(w.txdb, ts, k, o);
  }

  /** No outpoint is spent twice in the block. */
  lemma SpentOnce(w: World, rules: Rules, ts: seq<Stored>, i: nat, j: nat, o: OutPoint)
    requires Sound(w) && Mined(w, rules, ts) && DistinctIds(ts) && i < j < |ts| && o in ts[i].tx.vin
    ensures o !in ts[j].tx.vin
  {
    hide ConnectAll, Fits;
    var k := j - 1;
    MarkRemains(w, rules, ts, i, k, o);
    MinedAt(w, rules, ts, j);
    MinedSpendable(w, rules, ts, j);
    assert ts[..k + 1] == ts[..j];
    NotSpendable(ConnectAll(w.txdb, ts[..j]), ts[j].tx, o);
  }

  lemma NotSpendable(view: Index, tx: Tx, o: OutPoint)
    requires Spendable(view, tx) && !tx.IsCoinBase() && !Unspent(view, o)
    ensures o !in tx.vin
  {}

  /** Transactions are never older than the ones they spend from. */
  lemma ParentsAreOlder(w: World, rules: Rules, ts: seq<Stored>, j: nat, k: nat, o: OutPoint)
    requires Sound(w) && Mined(w, rules, ts) && j < k < |ts| && o in ts[k].tx.vin && ts[j].tx.hash == o.hash
    ensures ts[j].tx.nTime <= ts[k].tx.nTime
  {
    hide ConnectAll;
    MinedAt(w, rules, ts, j);
    MinedAt(w, rules, ts, k);
    var tx := ts[k].tx;
    var src := At(ConnectAll(w.txdb, ts[..k]), w.disk, w.pool);
    var i :| 0 <= i < |tx.vin| && tx.vin[i] == o;
    assert InputOk(rules, InputsAt(src, tx.vin), tx, i);
    MinedLookup(w, rules, ts[..k], o.hash);
  }

  // ---------------------------------------------------------------- CreateNewBlock

  /** The block so far. */
  ghost predicate Assembled(w: World, l: Limits, ts: seq<Stored>, t: Totals) {
    && Mined(w, l.rules, ts) && DistinctIds(ts)
    && t.nFees == FeesOf(w, ts) && t.nBlockSize == 1000 + SizeOf(ts)
    && t.nBlockSigOps == 100 + SigOps(l.rules, w.txdb, w.disk, w.pool, ts)
    && (ts != [] ==> t.nBlockSize < l.nBlockMaxSize && t.nBlockSigOps < MAX_BLOCK_SIGOPS)
    && forall i :: 0 <= i < |ts| ==> TimeOk(l, ts[i].tx)
  }

  /** What the limits and times of an assembled block are. */
  lemma AssembledMeans(w: World, l: Limits, ts: seq<Stored>, t: Totals, k: nat)
    requires Sound(w) && Assembled(w, l, ts, t) && k < |ts|
    ensures 1000 + SizeOf(ts) < l.nBlockMaxSize && t.nFees == FeesOf(w, ts) >= 0
    ensures 100 + SigOps(l.rules, w.txdb, w.disk, w.pool, ts) < 20000
    ensures ts[k].tx.nTime <= l.nAdjustedTime && (l.fProofOfStake ==> ts[k].tx.nTime <= l.coinbaseTime)
  {
    FeesAreEarned(w, l.rules, ts);
  }

  lemma AssembledAnyOrder(w: World, l: Limits, ts: seq<Stored>, t: Totals, sorted: bool)
    requires Assembled(w, l, ts, t)
    ensures Assembled(w, l, ts, t.(fSortedByFee := sorted))
  {}

  function With(ts: seq<Stored>, tx: Tx): seq<Stored> { ts + [Stored(tx, MEMPOOL_POS)] }

  lemma WithOne(idx: Index, ts: seq<Stored>, tx: Tx)
    ensures var ts' := With(ts, tx);
      && ts'[..|ts'| - 1] == ts && ts'[|ts'| - 1] == Stored(tx, MEMPOOL_POS)
      && ConnectAll(idx, ts') == Connect(ConnectAll(idx, ts), Stored(tx, MEMPOOL_POS))
      && Ids(ts') == Ids(ts) + {tx.hash}
  {
    var ts' := With(ts, tx);
    assert ts'[..|ts'| - 1] == ts;
    IdsSnoc(ts');
  }

  lemma AssembleOne(w: World, l: Limits, ts: seq<Stored>, t: Totals, tx: Tx, t': Totals)
    requires Sound(w) && Assembled(w, l, ts, t) && w.Eligible(tx.hash) && w.pool[tx.hash] == tx && tx.hash !in Ids(ts)
    requires Worth(w, l, ConnectAll(w.txdb, ts), t, tx) && Counted(w, l, ConnectAll(w.txdb, ts), tx, t, t')
    ensures Assembled(w, l, With(ts, tx), t')
  {
    hide InputsOk, ConnectAll;
    var ts' := With(ts, tx);
    WithOne(w.txdb, ts, tx);
    assert Mined(w, l.rules, ts');
    assert t'.nFees == FeesOf(w, ts') by { MinedSum(w, l.rules, ts, tx.vin, tx.vin); }
    assert DistinctIds(ts') by {
      forall i | 0 <= i < |ts| ensures ts[i].tx.hash != tx.hash { assert ts[i].tx.hash in Ids(ts); }
    }
    forall i | 0 <= i < |ts'| ensures TimeOk(l, ts'[i].tx) {
      if i < |ts| { assert TimeOk(l, ts[i].tx); }
    }
  }

  /** `x` was not worth including on top of the first `k` transactions, with totals `t`. */
  ghost predicate NotWorth(w: World, l: Limits, ts: seq<Stored>, k: nat, t: Totals, x: Hash) {
    && k <= |ts| && x in w.pool && Assembled(w, l, ts[..k], t)
    && !Worth(w, l, ConnectAll(w.txdb, ts[..k]), t, w.pool[x])
  }

  /** Whatever was tried is in the block, or was not worth including when its turn came. */
  ghost predicate Judged(w: World, l: Limits, ts: seq<Stored>, x: Hash) {
    x in Ids(ts) || exists k: nat, t :: NotWorth(w, l, ts, k, t, x)
  }

  ghost predicate AllJudged(w: World, l: Limits, ts: seq<Stored>, tried: set<Hash>) {
    forall x {:trigger Judged(w, l, ts, x)} :: x in tried ==> Judged(w, l, ts, x)
  }

  lemma JudgedMore(w: World, l: Limits, ts: seq<Stored>, tx: Tx, x: Hash)
    requires Judged(w, l, ts, x)
    ensures Judged(w, l, With(ts, tx), x)
  {
    hide Assembled, Worth;
    var ts' := With(ts, tx);
    WithOne(w.txdb, ts, tx);
    if x !in Ids(ts) {
      var k: nat, t :| NotWorth(w, l, ts, k, t, x);
      assert ts'[..k] == ts[..k];
      assert NotWorth(w, l, ts', k, t, x);
    }
  }

  /** Scheduler, block and test pool fit together. */
  ghost predicate Going(w: World, l: Limits, s: Sched, testPool: Index, ts: seq<Stored>, t: Totals, tried: set<Hash>) {
    && Tracks(w, s, Ids(ts), tried) && Assembled(w, l, ts, t)
    && w.txdb + testPool == ConnectAll(w.txdb, ts) && Ids(ts) <= tried <= w.pool.Keys
  }

  lemma JudgeOne(w: World, l: Limits, ts: seq<Stored>, t: Totals, h: Hash, ts': seq<Stored>, tried: set<Hash>)
    requires h in w.pool && w.pool[h].hash == h && Assembled(w, l, ts, t) && AllJudged(w, l, ts, tried - {h})
    requires if Worth(w, l, ConnectAll(w.txdb, ts), t, w.pool[h]) then ts' == With(ts, w.pool[h]) else ts' == ts
    ensures AllJudged(w, l, ts', tried)
  {
    hide Assembled, Worth;
    WithOne(w.txdb, ts, w.pool[h]);
    assert ts[..|ts|] == ts;
    forall x | x in tried ensures Judged(w, l, ts', x) {
      if x != h {
        assert Judged(w, l, ts, x);
        JudgedMore(w, l, ts, w.pool[h], x);
      } else if !Worth(w, l, ConnectAll(w.txdb, ts), t, w.pool[h]) {
        assert NotWorth(w, l, ts, |ts|, t, h);
      }
    }
  }

  /** Try candidate `h`, which has just been taken off the queue. */
  method Try(w: World, l: Limits, s0: Sched, testPool0: Index, ts0: seq<Stored>, t0: Totals, h: Hash,
    ghost tried: set<Hash>)
    returns (s: Sched, testPool: Index, ts: seq<Stored>, t: Totals)
    requires Sound(w) && Going(w, l, s0, testPool0, ts0, t0, tried)
    requires w.Eligible(h) && h !in Ids(ts0) && h in tried && AllJudged(w, l, ts0, tried - {h})
    ensures Going(w, l, s, testPool, ts, t, tried) && AllJudged(w, l, ts, tried)
  {
    hide Worth, InputsOk, AllJudged, Counted, Assembled, Tracks;
    s, ts := s0, ts0;
    assert w.OkAt(h);
    var added;
    added, testPool, t := TryAdd(w, l, testPool0, t0, w.pool[h]);
    AssembledAnyOrder(w, l, ts0, t0, t.fSortedByFee);
    JudgeOne(w, l, ts0, t0, h, if added then With(ts0, w.pool[h]) else ts0, tried);
    if added {
      AssembleOne(w, l, ts0, t0, w.pool[h], t);
      WithOne(w.txdb, ts0, w.pool[h]);
      s := Release(w, s, Ids(ts), tried, h);
      ts := With(ts0, w.pool[h]);
    }
  }

  /** One round of the loop. */
  method Round(w: World, l: Limits, s0: Sched, testPool0: Index, ts0: seq<Stored>, t0: Totals, ghost tried0: set<Hash>)
    returns (s: Sched, testPool: Index, ts: seq<Stored>, t: Totals, ghost tried: set<Hash>)
    requires Sound(w) && Going(w, l, s0, testPool0, ts0, t0, tried0) && s0.queue != [] && AllJudged(w, l, ts0, tried0)
    ensures Going(w, l, s, testPool, ts, t, tried) && |w.pool.Keys - tried| < |w.pool.Keys - tried0|
    ensures AllJudged(w, l, ts, tried)
  {
    var h;
    h, s := Pop(w, s0, Ids(ts0), tried0);
    tried := tried0 + {h};
    assert tried - {h} == tried0;
    assert w.pool.Keys - tried == (w.pool.Keys - tried0) - {h};
    s, testPool, ts, t := Try(w, l, s, testPool0, ts0, t0, h, tried);
  }

  lemma GoingMeans(w: World, l: Limits, s: Sched, testPool: Index, ts: seq<Stored>, t: Totals, tried: set<Hash>)
    requires Going(w, l, s, testPool, ts, t, tried) && s.queue == []
    ensures forall x :: w.Eligible(x) ==> (x in tried <==> w.Parents(x) <= Ids(ts))
  {
    forall x | w.Eligible(x)
      ensures x in tried <==> w.Parents(x) <= Ids(ts)
    {
      assert Tracked(w, s, Ids(ts), tried, x);
    }
  }

  lemma GoingStart(w: World, l: Limits, s: Sched, fSortedByFee: bool)
    requires Tracks(w, s, {}, {})
    ensures Going(w, l, s, map[], [], Totals(1000, 100, 0, fSortedByFee), {})
  {
    assert w.txdb + map[] == w.txdb && Ids([]) == {};
  }

  /** The collecting part of CreateNewBlock. A pool transaction was tried exactly if all its
      unconfirmed parents got into the block, tried only once, and left out only if it was not worth
      including on top of the block so far. */
  method CreateNewBlock(w: World, l: Limits) returns (ts: seq<Stored>, t: Totals, ghost tried: set<Hash>)
    requires Sound(w)
    ensures Assembled(w, l, ts, t) && Ids(ts) <= tried
    ensures forall x :: w.Eligible(x) ==> (x in tried <==> w.Parents(x) <= Ids(ts))
    ensures AllJudged(w, l, ts, tried)
  {
    var s := Scan(w);
    var testPool: Index := map[];
    ts, t, tried := [], Totals(1000, 100, 0, l.nBlockPrioritySize <= 0), {};
    GoingStart(w, l, s, l.nBlockPrioritySize <= 0);
    while s.queue != []
      invariant Going(w, l, s, testPool, ts, t, tried) && AllJudged(w, l, ts, tried)
      decreases |w.pool.Keys - tried|
    {
      s, testPool, ts, t, tried := Round(w, l, s, testPool, ts, t, tried);
    }
    GoingMeans(w, l, s, testPool, ts, t, tried);
  }

  // ---------------------------------------------------------------- SignBlock

  function Filtered(ts: seq<Stored>, nTime: int): seq<Stored> {
    if ts == [] then []
    else Filtered(ts[..|ts| - 1], nTime) + if ts[|ts| - 1].tx.nTime > nTime then [] else [ts[|ts| - 1]]
  }

  /** `r` are the transactions at places `js`, which are in ascending order and just those of the
      transactions up to the time. */
  ghost predicate KeepsInOrder(ts: seq<Stored>, nTime: int, r: seq<Stored>, js: seq<nat>) {
    && |js| == |r| && (forall i, j :: 0 <= i < j < |js| ==> js[i] < js[j])
    && (forall i :: 0 <= i < |r| ==> js[i] < |ts| && r[i] == ts[js[i]])
    && (forall k: nat :: k in js <==> k < |ts| && ts[k].tx.nTime <= nTime)
  }

  lemma KeepOne(ts: seq<Stored>, nTime: int, r: seq<Stored>, js: seq<nat>)
    requires ts != [] && KeepsInOrder(ts[..|ts| - 1], nTime, r, js)
    ensures var n, t := |ts| - 1, ts[|ts| - 1];
      if t.tx.nTime > nTime then KeepsInOrder(ts, nTime, r, js) else KeepsInOrder(ts, nTime, r + [t], js + [n])
  {
    var n, init := |ts| - 1, ts[..|ts| - 1];
    forall i | 0 <= i < |js| ensures js[i] < n && r[i] == ts[js[i]] {}
    var js' := if ts[n].tx.nTime > nTime then js else js + [n];
    forall k: nat ensures k in js' <==> k < |ts| && ts[k].tx.nTime <= nTime {
      assert k in js <==> k < n && init[k].tx.nTime <= nTime;
    }
    forall i, j | 0 <= i < j < |js'| ensures js'[i] < js'[j] {
      if j < |js| { assert js'[i] == js[i] && js'[j] == js[j]; }
    }
  }

  lemma {:induction false} FilteredInOrder(ts: seq<Stored>, nTime: int) returns (js: seq<nat>)
    ensures KeepsInOrder(ts, nTime, Filtered(ts, nTime), js)
  {
    js := [];
    if ts != [] {
      js := FilteredInOrder(ts[..|ts| - 1], nTime);
      KeepOne(ts, nTime, Filtered(ts[..|ts| - 1], nTime), js);
      if ts[|ts| - 1].tx.nTime <= nTime { js := js + [|ts| - 1]; }
      hide KeepsInOrder;
      assert ts[|ts| - 1].tx.nTime > nTime ==> Filtered(ts, nTime) == Filtered(ts[..|ts| - 1], nTime);
    }
  }

  /** The loop of SignBlock that drops transactions with a later time. */
  method DropLater(ts: seq<Stored>, nTime: int) returns (r: seq<Stored>)
    ensures r == Filtered(ts, nTime)
    ensures exists js :: KeepsInOrder(ts, nTime, r, js)
  {
    ghost var js := FilteredInOrder(ts, nTime);
    r := [];
    for i := 0 to |ts|
      invariant r == Filtered(ts[..i], nTime)
    {
      assert ts[..i + 1][..i] == ts[..i];
      if ts[i].tx.nTime <= nTime { r := r + [ts[i]]; }
    }
    assert ts[..|ts|] == ts;
  }

  lemma {:induction false} FilteredHas(ts: seq<Stored>, nTime: int, k: nat)
    requires k < |ts|
    ensures ts[k].tx.nTime <= nTime ==> ts[k] in Filtered(ts, nTime)
    decreases |ts|
  {
    if k < |ts| - 1 {
      FilteredHas(ts[..|ts| - 1], nTime, k);
    }
  }

  lemma {:induction false} FilteredFrom(ts: seq<Stored>, nTime: int, x: Stored)
    requires x in Filtered(ts, nTime)
    ensures x.tx.nTime <= nTime && x in ts
  {
    if x in Filtered(ts[..|ts| - 1], nTime) { FilteredFrom(ts[..|ts| - 1], nTime, x); }
  }

  /** The filter never keeps a transaction and drops one it spends from. */
  lemma FilterKeepsParents(w: World, rules: Rules, ts: seq<Stored>, nTime: int, j: nat, k: nat, o: OutPoint)
    requires Sound(w) && Mined(w, rules, ts) && j < k < |ts| && o in ts[k].tx.vin && ts[j].tx.hash == o.hash
    requires ts[k] in Filtered(ts, nTime)
    ensures ts[j] in Filtered(ts, nTime)
  {
    FilteredFrom(ts, nTime, ts[k]);
    ParentsAreOlder(w, rules, ts, j, k, o);
    FilteredHas(ts, nTime, j);
  }
}
