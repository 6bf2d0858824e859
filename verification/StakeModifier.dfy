/** Selection of the stake modifier (src/kernel.cpp: GetLastStakeModifier,
    GetStakeModifierSelectionIntervalSection, SelectBlockFromCandidates,
    ComputeNextStakeModifier). */
module StakeModifier {
  import opened Basics

  type Hash = nat

  const MODIFIER_INTERVAL: nat := 10 * 60
  const MODIFIER_INTERVAL_RATIO: nat := 3

  /** A block of the chain, with what its index entry holds for the modifier. */
  datatype Blk = Blk(hash: Hash, nTime: nat, proofOfStake: bool, hashProof: Hash, entropyBit: bool,
    nStakeModifier: nat, generated: bool)

  /** A candidate with its selection hash for the round, already divided by 2^32 for
      proof-of-stake blocks. */
  datatype Candidate = Candidate(nTime: int, hash: Hash, selection: nat, entropyBit: bool)

  function SelectionHash(h: (Hash, nat) -> nat, b: Blk, nStakeModifierPrev: nat): nat {
    if b.proofOfStake then h(b.hashProof, nStakeModifierPrev) / 0x1_0000_0000 else h(b.hash, nStakeModifierPrev)
  }

  // ---------------------------------------------------------------- intervals

  function Section(nSection: nat): nat
    requires nSection < 64
  {
    MODIFIER_INTERVAL * 63 / (63 + (63 - nSection) * (MODIFIER_INTERVAL_RATIO - 1))
  }

  /** The first n sections together. */
  function Sections(n: nat): nat
    requires n <= 64
  {
    if n == 0 then 0 else Sections(n - 1) + Section(n - 1)
  }

  method SelectionInterval() returns (r: nat)
    ensures r == Sections(64)
  {
    r := 0;
    for n := 0 to 64
      invariant r == Sections(n)
    {
      r := r + Section(n);
    }
  }

  /** The sections grow to the whole interval, from the part of it that the ratio gives. */
  lemma SectionsGrow(i: nat, j: nat)
    requires i <= j < 64
    ensures Section(i) <= Section(j)
    ensures Section(63) == MODIFIER_INTERVAL && MODIFIER_INTERVAL_RATIO * Section(0) == MODIFIER_INTERVAL
  {
    var n, d, e := MODIFIER_INTERVAL * 63, 63 + (63 - i) * 2, 63 + (63 - j) * 2;
    var q := n / d;
    assert n == d * q + n % d;
    assert e * q <= d * q by { ScaleBy(e, d, q); }
    DivideBy(n, e, q);
  }

  lemma ScaleBy(a: nat, b: nat, q: nat)
    requires a <= b
    ensures a * q <= b * q
  {}

  lemma DivideBy(n: nat, d: nat, q: nat)
    requires d > 0 && d * q <= n
    ensures q <= n / d
  {
    var r := n / d;
    assert n == d * r + n % d;
    assert d * (r + 1) == d * r + d;
    if q > r {
      ScaleBy(r + 1, q, d);
    }
  }

  /** A proof-of-stake block beats every proof-of-work block whose hash is not less than a 2^32nd of its
      own: its selection hash is the floor of that part, of its proof hash in place of the block hash. */
  lemma StakeIsFavoured(h: (Hash, nat) -> nat, stake: Blk, work: Blk, prev: nat)
    requires stake.proofOfStake && !work.proofOfStake
    ensures SelectionHash(h, work, prev) == h(work.hash, prev)
    ensures SelectionHash(h, stake, prev) * 0x1_0000_0000 <= h(stake.hashProof, prev)
      < (SelectionHash(h, stake, prev) + 1) * 0x1_0000_0000
    ensures h(stake.hashProof, prev) < (h(work.hash, prev) + 1) * 0x1_0000_0000
       <==> SelectionHash(h, stake, prev) <= SelectionHash(h, work, prev)
  {}

  // ---------------------------------------------------------------- sorting

  /** The order of pairs of time and hash. */
  predicate Before(a: Candidate, b: Candidate) { a.nTime < b.nTime || (a.nTime == b.nTime && a.hash <= b.hash) }

  ghost predicate Sorted(s: seq<Candidate>) { forall i, j :: 0 <= i < j < |s| ==> Before(s[i], s[j]) }

  /** The same candidates. */
  ghost predicate SameCandidates(s: seq<Candidate>, v: seq<Candidate>) {
    |s| == |v| && forall c {:trigger c in s} {:trigger c in v} :: c in s <==> c in v
  }

  ghost predicate DistinctHashes(s: seq<Candidate>) { forall i, j :: 0 <= i < j < |s| ==> s[i].hash != s[j].hash }

  method Insert(s: seq<Candidate>, c: Candidate) returns (r: seq<Candidate>)
    requires Sorted(s) && DistinctHashes(s) && forall i :: 0 <= i < |s| ==> s[i].hash != c.hash
    ensures Sorted(r) && DistinctHashes(r) && |r| == |s| + 1 && forall d :: d in r <==> d in s || d == c
  {
    var i := 0;
    while i < |s| && Before(s[i], c)
      invariant 0 <= i <= |s| && forall j :: 0 <= j < i ==> Before(s[j], c)
    {
      i := i + 1;
    }
    r := s[..i] + [c] + s[i..];
    forall d ensures d in r <==> d in s || d == c {
      if d in s { var j :| 0 <= j < |s| && s[j] == d; assert r[if j < i then j else j + 1] == d; }
      assert r[i] == c;
    }
    forall a, b | 0 <= a < b < |r| ensures Before(r[a], r[b]) && r[a].hash != r[b].hash {
      assert r[a] == (if a < i then s[a] else if a == i then c else s[a - 1]);
      assert r[b] == (if b < i then s[b] else if b == i then c else s[b - 1]);
    }
  }

  method SortByTimestamp(v: seq<Candidate>) returns (s: seq<Candidate>)
    requires DistinctHashes(v)
    ensures Sorted(s) && DistinctHashes(s) && SameCandidates(s, v)
  {
    s := [];
    for n := 0 to |v|
      invariant Sorted(s) && DistinctHashes(s) && SameCandidates(s, v[..n])
    {
      forall i | 0 <= i < |s| ensures s[i].hash != v[n].hash {
        assert s[i] in s;
        var j :| 0 <= j < n && v[..n][j] == s[i];
      }
      assert v[..n + 1] == v[..n] + [v[n]];
      s := Insert(s, v[n]);
    }
    assert v[..|v|] == v;
  }

  // ---------------------------------------------------------------- one round

  /** Candidate `j` can be selected: it is not selected yet, and its time is up to the stop
      or it is the earliest unselected one. */
  ghost predicate Open(s: seq<Candidate>, selected: set<Hash>, stop: int, j: int) {
    && 0 <= j < |s| && s[j].hash !in selected
    && (s[j].nTime <= stop || forall i :: 0 <= i < j ==> s[i].hash in selected)
  }

  /** `j` is the first of the open candidates with the smallest selection hash. */
  ghost predicate IsSelected(s: seq<Candidate>, selected: set<Hash>, stop: int, j: int) {
    && Open(s, selected, stop, j)
    && forall i {:trigger Open(s, selected, stop, i)} :: Open(s, selected, stop, i) ==>
         s[j].selection <= s[i].selection && (i < j ==> s[j].selection < s[i].selection)
  }

  /** The best of the open candidates below `n`. */
  ghost predicate BestBelow(s: seq<Candidate>, selected: set<Hash>, stop: int, n: int, j: int) {
    && 0 <= j < n && Open(s, selected, stop, j)
    && forall i {:trigger Open(s, selected, stop, i)} :: i < n && Open(s, selected, stop, i) ==>
         s[j].selection <= s[i].selection && (i < j ==> s[j].selection < s[i].selection)
  }

  method SelectBlockFromCandidates(s: seq<Candidate>, selected: set<Hash>, stop: int)
    returns (fSelected: bool, best: int)
    requires Sorted(s)
    ensures fSelected <==> exists j :: 0 <= j < |s| && s[j].hash !in selected
    ensures fSelected ==> IsSelected(s, selected, stop, best)
  {
    fSelected, best := false, -1;
    var n := 0;
    while n < |s|
      invariant 0 <= n <= |s|
      invariant !fSelected ==> forall i :: 0 <= i < n ==> s[i].hash in selected
      invariant fSelected ==> BestBelow(s, selected, stop, n, best)
    {
      if fSelected && s[n].nTime > stop {
        forall i | Open(s, selected, stop, i) ensures i < n {}
        return;
      }
      if s[n].hash !in selected {
        if (fSelected && s[n].selection < s[best].selection) || !fSelected {
          best := n;
        }
        fSelected := true;
      }
      n := n + 1;
    }
  }

  // ---------------------------------------------------------------- the modifier word

  /** Bitwise or. */
  function Or(a: nat, b: nat): nat
    decreases a + b
  {
    if a == 0 && b == 0 then 0 else 2 * Or(a / 2, b / 2) + if a % 2 == 1 || b % 2 == 1 then 1 else 0
  }

  /** Bits, the first one lowest. */
  function Word(bits: seq<bool>): nat {
    if bits == [] then 0 else (if bits[0] then 1 else 0) + 2 * Word(bits[1..])
  }

  lemma {:induction false} OrZero(a: nat)
    ensures Or(a, 0) == a
  {
    if a > 0 { OrZero(a / 2); }
  }

  /** Setting the next bit. */
  lemma {:induction false} OrNextBit(bits: seq<bool>, bit: bool)
    ensures Or(Word(bits), if bit then Pow2(|bits|) else 0) == Word(bits + [bit])
  {
    if bits == [] {
      assert Or(0, 1) == 2 * Or(0, 0) + 1;
      assert (bits + [bit])[1..] == [];
    } else {
      OrNextBit(bits[1..], bit);
      assert (bits + [bit])[1..] == bits[1..] + [bit];
      assert Word(bits) / 2 == Word(bits[1..]);
      if !bit { OrZero(Word(bits)); OrZero(Word(bits[1..])); }
    }
  }

  // ---------------------------------------------------------------- ComputeNextStakeModifier

  /** Walk back to the last block that generated a modifier. */
  method GetLastStakeModifier(chain: seq<Blk>) returns (ok: bool, nStakeModifier: nat, nModifierTime: nat)
    requires chain != []
    ensures ok <==> exists i :: 0 <= i < |chain| && chain[i].generated
    ensures ok ==> exists i ::
      LastGenerated(chain, i) && nStakeModifier == chain[i].nStakeModifier && nModifierTime == chain[i].nTime
  {
    var p := |chain| - 1;
    while p > 0 && !chain[p].generated
      invariant 0 <= p < |chain| && forall i :: p < i < |chain| ==> !chain[i].generated
    {
      p := p - 1;
    }
    ok, nStakeModifier, nModifierTime := chain[p].generated, chain[p].nStakeModifier, chain[p].nTime;
    assert ok ==> LastGenerated(chain, p);
  }

  ghost predicate LastGenerated(chain: seq<Blk>, i: int) {
    0 <= i < |chain| && chain[i].generated && forall j :: i < j < |chain| ==> !chain[j].generated
  }

  function AsCandidate(h: (Hash, nat) -> nat, b: Blk, prev: nat): Candidate {
    Candidate(b.nTime, b.hash, SelectionHash(h, b, prev), b.entropyBit)
  }

  ghost predicate DistinctBlocks(chain: seq<Blk>) {
    forall i, j :: 0 <= i < j < |chain| ==> chain[i].hash != chain[j].hash
  }

  /** `v` are the blocks of the chain after the last one earlier than `start`. */
  ghost predicate Collected(h: (Hash, nat) -> nat, chain: seq<Blk>, start: int, prev: nat, v: seq<Candidate>) {
    && |v| <= |chain|
    && (forall i :: 0 <= i < |v| ==> v[i] == AsCandidate(h, chain[|chain| - 1 - i], prev) && v[i].nTime >= start)
    && (|v| < |chain| ==> chain[|chain| - 1 - |v|].nTime < start)
  }

  lemma CollectedDistinct(h: (Hash, nat) -> nat, chain: seq<Blk>, start: int, prev: nat, v: seq<Candidate>)
    requires DistinctBlocks(chain) && Collected(h, chain, start, prev, v)
    ensures DistinctHashes(v)
  {}

  method Collect(h: (Hash, nat) -> nat, chain: seq<Blk>, start: int, prev: nat) returns (v: seq<Candidate>)
    ensures Collected(h, chain, start, prev, v)
  {
    v := [];
    var p := |chain| - 1;
    while p >= 0 && chain[p].nTime >= start
      invariant -1 <= p < |chain| && |v| == |chain| - 1 - p
      invariant forall i :: 0 <= i < |v| ==> v[i] == AsCandidate(h, chain[|chain| - 1 - i], prev) && v[i].nTime >= start
    {
      v := v + [AsCandidate(h, chain[p], prev)];
      p := p - 1;
    }
  }

  function Rounds(n: nat): nat { if n < 64 then n else 64 }

  /** The hashes picked in the first rounds. */
  ghost function Picked(s: seq<Candidate>, picks: seq<int>): set<Hash>
    requires forall r :: 0 <= r < |picks| ==> 0 <= picks[r] < |s|
  {
    set r | 0 <= r < |picks| :: s[picks[r]].hash
  }

  /** Round `r` picked the candidate it should, given the picks before it. */
  ghost predicate RoundOk(s: seq<Candidate>, start: int, picks: seq<int>, r: nat)
    requires r < |picks| <= 64 && forall q :: 0 <= q < |picks| ==> 0 <= picks[q] < |s|
  {
    IsSelected(s, Picked(s, picks[..r]), start + Sections(r + 1), picks[r])
  }

  function Bits(s: seq<Candidate>, picks: seq<int>): seq<bool>
    requires forall r :: 0 <= r < |picks| ==> 0 <= picks[r] < |s|
  {
    seq(|picks|, r requires 0 <= r < |picks| => s[picks[r]].entropyBit)
  }

  /** All rounds so far picked as they should. */
  ghost predicate PicksOk(s: seq<Candidate>, start: int, picks: seq<int>) {
    && |picks| <= 64 && (forall r :: 0 <= r < |picks| ==> 0 <= picks[r] < |s|)
    && (forall r {:trigger RoundOk(s, start, picks, r)} :: 0 <= r < |picks| ==> RoundOk(s, start, picks, r))
  }

  /** The picks are pairwise different blocks. */
  lemma PicksDistinct(s: seq<Candidate>, start: int, picks: seq<int>, q: nat, r: nat)
    requires PicksOk(s, start, picks) && q < r < |picks|
    ensures s[picks[q]].hash != s[picks[r]].hash
  {
    assert RoundOk(s, start, picks, r) && picks[..r][q] == picks[q];
  }

  lemma RoundsStay(s: seq<Candidate>, start: int, picks: seq<int>, j: int)
    requires PicksOk(s, start, picks) && |picks| < 64
    requires IsSelected(s, Picked(s, picks), start + Sections(|picks| + 1), j)
    ensures PicksOk(s, start, picks + [j])
  {
    hide IsSelected, Sections;
    SelectedIsIn(s, Picked(s, picks), start + Sections(|picks| + 1), j);
    var more := picks + [j];
    forall r: nat | r < |more| ensures RoundOk(s, start, more, r) {
      if r < |picks| {
        assert RoundOk(s, start, picks, r) && more[..r] == picks[..r];
      } else {
        assert more[..r] == picks;
      }
    }
  }

  lemma SelectedIsIn(s: seq<Candidate>, selected: set<Hash>, stop: int, j: int)
    requires IsSelected(s, selected, stop, j)
    ensures 0 <= j < |s|
  {}

  lemma PickedOneMore(s: seq<Candidate>, picks: seq<int>, j: int)
    requires 0 <= j < |s| && forall r :: 0 <= r < |picks| ==> 0 <= picks[r] < |s|
    ensures Picked(s, picks + [j]) == Picked(s, picks) + {s[j].hash}
  {
    var more := picks + [j];
    forall x ensures x in Picked(s, more) <==> x in Picked(s, picks) || x == s[j].hash {
      if x in Picked(s, picks) { var r :| 0 <= r < |picks| && s[picks[r]].hash == x; assert more[r] == picks[r]; }
      if x in Picked(s, more) {
        var r :| 0 <= r < |more| && s[more[r]].hash == x;
        if r < |picks| { assert picks[r] == more[r]; }
      }
      assert more[|picks|] == j;
    }
  }

  lemma PicksStep(s: seq<Candidate>, start: int, picks: seq<int>, j: int)
    requires PicksOk(s, start, picks) && |picks| < 64
    requires IsSelected(s, Picked(s, picks), start + Sections(|picks| + 1), j)
    ensures PicksOk(s, start, picks + [j])
    ensures Picked(s, picks + [j]) == Picked(s, picks) + {s[j].hash}
    ensures Bits(s, picks + [j]) == Bits(s, picks) + [s[j].entropyBit]
  {
    hide RoundOk, Sections;
    RoundsStay(s, start, picks, j);
    PickedOneMore(s, picks, j);
  }

  /** Fewer picks than candidates leave one unselected. */
  lemma OneIsLeft(s: seq<Candidate>, start: int, picks: seq<int>)
    requires PicksOk(s, start, picks) && |picks| < |s| && DistinctHashes(s)
    ensures exists j :: 0 <= j < |s| && s[j].hash !in Picked(s, picks)
  {
    if forall j :: 0 <= j < |s| ==> s[j].hash in Picked(s, picks) {
      var all := set j | 0 <= j < |s| :: s[j].hash;
      HashCount(s, all);
      assert all <= Picked(s, picks);
      PickCount(s, picks);
      SubsetSize(all, Picked(s, picks));
    }
  }

  lemma {:induction false} HashCount(s: seq<Candidate>, all: set<Hash>)
    requires DistinctHashes(s) && all == set j | 0 <= j < |s| :: s[j].hash
    ensures |all| == |s|
  {
    if s != [] {
      var n := |s| - 1;
      var init := set j | 0 <= j < n :: s[..n][j].hash;
      HashCount(s[..n], init);
      assert s[n].hash !in init;
      assert all == init + {s[n].hash} by {
        forall x ensures x in all <==> x in init || x == s[n].hash {
          if x in all { var j :| 0 <= j < |s| && s[j].hash == x; if j < n { assert s[..n][j].hash == x; } }
          if x in init { var j :| 0 <= j < n && s[..n][j].hash == x; assert s[j].hash == x; }
        }
      }
    }
  }

  lemma {:induction false} PickCount(s: seq<Candidate>, picks: seq<int>)
    requires forall r :: 0 <= r < |picks| ==> 0 <= picks[r] < |s|
    ensures |Picked(s, picks)| <= |picks|
  {
    if picks != [] {
      var n := |picks| - 1;
      PickCount(s, picks[..n]);
      assert Picked(s, picks) <= Picked(s, picks[..n]) + {s[picks[n]].hash} by {
        forall x | x in Picked(s, picks) ensures x in Picked(s, picks[..n]) + {s[picks[n]].hash} {
          var r :| 0 <= r < |picks| && s[picks[r]].hash == x;
          if r < n { assert picks[..n][r] == picks[r]; }
        }
      }
      SubsetSize(Picked(s, picks), Picked(s, picks[..n]) + {s[picks[n]].hash});
    }
  }

  /** The selection rounds: none of them fails. */
  method SelectAll(s: seq<Candidate>, start: int)
    returns (ok: bool, nStakeModifierNew: nat, stop: int, ghost picks: seq<int>)
    requires Sorted(s) && DistinctHashes(s)
    ensures ok && PicksOk(s, start, picks) && |picks| == Rounds(|s|)
    ensures nStakeModifierNew == Word(Bits(s, picks)) && stop == start + Sections(|picks|)
  {
    nStakeModifierNew, stop, picks := 0, start, [];
    var selected: set<Hash> := {};
    assert Bits(s, picks) == [] && Picked(s, picks) == {};
    for nRound := 0 to Rounds(|s|)
      invariant |picks| == nRound && PicksOk(s, start, picks) && selected == Picked(s, picks)
      invariant nStakeModifierNew == Word(Bits(s, picks)) && stop == start + Sections(nRound)
    {
      stop := stop + Section(nRound);
      OneIsLeft(s, start, picks);
      var fSelected, j := SelectBlockFromCandidates(s, selected, stop);
      PicksStep(s, start, picks, j);
      OrNextBit(Bits(s, picks), s[j].entropyBit);
      nStakeModifierNew := Or(nStakeModifierNew, if s[j].entropyBit then Pow2(nRound) else 0);
      selected := selected + {s[j].hash};
      picks := picks + [j];
    }
    ok := true;
  }

  /** The start of the modifier period that a time is in. */
  function Period(nTime: nat): nat { nTime / MODIFIER_INTERVAL * MODIFIER_INTERVAL }

  /** What a new modifier is made of: the candidates `s` in order, and the picks among them. */
  ghost predicate Generated(h: (Hash, nat) -> nat, chain: seq<Blk>, prev: nat, s: seq<Candidate>, picks: seq<int>,
    word: nat)
    requires chain != []
  {
    var start := Period(chain[|chain| - 1].nTime) - Sections(64);
    && Sorted(s) && DistinctHashes(s) && s != []
    && (exists v :: Collected(h, chain, start, prev, v) && SameCandidates(s, v))
    && PicksOk(s, start, picks) && |picks| == Rounds(|s|) && word == Word(Bits(s, picks))
  }

  /** Collect the candidates, sort them and select. The last of 64 rounds stops exactly at
      the start of the current modifier period. */
  method Generate(h: (Hash, nat) -> nat, chain: seq<Blk>, prev: nat)
    returns (word: nat, stop: int, ghost s: seq<Candidate>, ghost picks: seq<int>)
    requires DistinctBlocks(chain) && chain != []
    ensures Generated(h, chain, prev, s, picks, word)
    ensures |picks| == 64 ==> stop == Period(chain[|chain| - 1].nTime)
  {
    hide PicksOk, SameCandidates, Sections;
    var nSelectionInterval := SelectionInterval();
    var start := Period(chain[|chain| - 1].nTime) - nSelectionInterval;
    var v := Collect(h, chain, start, prev);
    assert v != [];
    CollectedDistinct(h, chain, start, prev, v);
    var vSorted := SortByTimestamp(v);
    s := vSorted;
    assert Collected(h, chain, start, prev, v) && SameCandidates(s, v);
    var ok;
    ok, word, stop, picks := SelectAll(vSorted, start);
  }

  /** What ComputeNextStakeModifier answers when block `i` was the last to generate. */
  ghost predicate NextModifier(
    h: (Hash, nat) -> nat, chain: seq<Blk>, i: int, nStakeModifier: nat, fGenerated: bool, s: seq<Candidate>,
    picks: seq<int>)
  {
    && LastGenerated(chain, i)
    && fGenerated == (Period(chain[i].nTime) < Period(chain[|chain| - 1].nTime))
    && if fGenerated then Generated(h, chain, chain[i].nStakeModifier, s, picks, nStakeModifier)
       else nStakeModifier == chain[i].nStakeModifier
  }

  /** ComputeNextStakeModifier for a block on top of `chain`. */
  method ComputeNextStakeModifier(h: (Hash, nat) -> nat, chain: seq<Blk>)
    returns (ok: bool, nStakeModifier: nat, fGenerated: bool, ghost s: seq<Candidate>, ghost picks: seq<int>)
    requires DistinctBlocks(chain)
    ensures ok <==> chain == [] || exists i :: 0 <= i < |chain| && chain[i].generated
    ensures chain == [] ==> nStakeModifier == 0 && fGenerated
    ensures ok && chain != [] ==> exists i :: NextModifier(h, chain, i, nStakeModifier, fGenerated, s, picks)
  {
    s, picks, nStakeModifier, fGenerated := [], [], 0, false;
    if chain == [] {
      return true, 0, true, s, picks;
    }
    var nModifierTime;
    ok, nStakeModifier, nModifierTime := GetLastStakeModifier(chain);
    if !ok {
      return;
    }
    ghost var last :| LastGenerated(chain, last) && nStakeModifier == chain[last].nStakeModifier
      && nModifierTime == chain[last].nTime;
    var tip := chain[|chain| - 1].nTime;
    PeriodOrder(nModifierTime, tip);
    if nModifierTime / MODIFIER_INTERVAL < tip / MODIFIER_INTERVAL {
      var stop;
      nStakeModifier, stop, s, picks := Generate(h, chain, nStakeModifier);
      fGenerated := true;
    }
    assert NextModifier(h, chain, last, nStakeModifier, fGenerated, s, picks);
  }

  lemma PeriodOrder(a: nat, b: nat)
    ensures a / MODIFIER_INTERVAL < b / MODIFIER_INTERVAL <==> Period(a) < Period(b)
  {}

  /** A chain as AddToBlockIndex grows it. */
  ghost predicate Grown(chain: seq<Blk>) {
    DistinctBlocks(chain) && (chain != [] ==> chain[0].generated)
  }

  /** The part of AddToBlockIndex that sets the modifier: it never fails, starting from
      nothing, whatever blocks are added. */
  method AddToChain(h: (Hash, nat) -> nat, chain: seq<Blk>, b: Blk) returns (ok: bool, chain': seq<Blk>)
    requires Grown(chain) && forall i :: 0 <= i < |chain| ==> chain[i].hash != b.hash
    ensures ok && Grown(chain') && |chain'| == |chain| + 1 && chain'[..|chain|] == chain
    ensures var n := chain'[|chain|];
      && n == b.(nStakeModifier := n.nStakeModifier, generated := n.generated)
      && (chain != [] ==> exists i, s, picks :: NextModifier(h, chain, i, n.nStakeModifier, n.generated, s, picks))
  {
    var nStakeModifier, fGenerated;
    ghost var s, picks;
    ok, nStakeModifier, fGenerated, s, picks := ComputeNextStakeModifier(h, chain);
    chain' := chain + [b.(nStakeModifier := nStakeModifier, generated := fGenerated)];
  }
}
