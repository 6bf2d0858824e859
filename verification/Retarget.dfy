/** Proof-of-work and proof-of-stake targets, and chain trust (src/main.cpp:
    GetLastBlockIndex, GetNextTargetRequired_, CBlockIndex::GetBlockTrust) on the main network. */
module Retarget {
  import opened Radix
  import opened Bignum

  const LIMIT: nat := 0xFFFFFFFFFFFFFFFFFFFFFFFFFFFFFFFFFFFFFFFFFFFFFFFFFFFFFFFFFFF   // ~uint256(0) >> 20
  const TARGET_TIMESPAN: nat := 15 * 60
  const TARGET_SPACING: nat := 150
  const TARGET_SPACING_OLD: nat := 300
  const HARD_FORK_BLOCK: nat := 112200
  const RESET_HEIGHT: nat := 11816

  /** What the target of a block depends on. A chain is the list of its blocks by height. */
  datatype Blk = Blk(nTime: int, nBits: nat, proofOfStake: bool)

  /** The last block of the kind at or below height `i`, or the first block. */
  function LastIndex(chain: seq<Blk>, i: nat, proofOfStake: bool): (r: nat)
    requires i < |chain|
    ensures r <= i && (r == 0 || chain[r].proofOfStake == proofOfStake)
    ensures forall j :: r < j <= i ==> chain[j].proofOfStake != proofOfStake
  {
    if i == 0 || chain[i].proofOfStake == proofOfStake then i else LastIndex(chain, i - 1, proofOfStake)
  }

  method GetLastBlockIndex(chain: seq<Blk>, i: nat, proofOfStake: bool) returns (p: nat)
    requires i < |chain|
    ensures p == LastIndex(chain, i, proofOfStake)
  {
    p := i;
    while p > 0 && chain[p].proofOfStake != proofOfStake
      invariant p <= i && LastIndex(chain, p, proofOfStake) == LastIndex(chain, i, proofOfStake)
    {
      p := p - 1;
    }
  }

  function Spacing(height: nat): nat { if height >= HARD_FORK_BLOCK then TARGET_SPACING else TARGET_SPACING_OLD }

  /** The exponential moving average over one block. */
  function Moved(t: int, spacing: nat, actual: nat): int
    requires spacing == TARGET_SPACING || spacing == TARGET_SPACING_OLD
  {
    var nInterval := TARGET_TIMESPAN / spacing;
    t * ((nInterval - 1) * spacing + actual + actual) / ((nInterval + 1) * spacing)
  }

  function Clamped(t: int): (r: nat)
    ensures 0 < r <= LIMIT
  {
    if t <= 0 || t > LIMIT then LIMIT else t
  }

  /** The next target from the last one and the time between the last two blocks. */
  function NextFrom(height: nat, t: int, actual: int): (r: nat)
    ensures 0 < r <= LIMIT
  {
    Clamped(Moved(t, Spacing(height), if actual < 0 then Spacing(height) else actual))
  }

  /** The target, before it is put in compact form, required of the block after `chain`. */
  function NextTarget(chain: seq<Blk>, proofOfStake: bool): (r: nat)
    ensures 0 < r <= LIMIT
  {
    if chain == [] || |chain| - 1 == RESET_HEIGHT then LIMIT
    else
      var prev := LastIndex(chain, |chain| - 1, proofOfStake);
      if prev == 0 then LIMIT
      else
        var prevPrev := LastIndex(chain, prev - 1, proofOfStake);
        if prevPrev == 0 then LIMIT
        else
          NextFrom(|chain|, SetCompact(chain[prev].nBits), chain[prev].nTime - chain[prevPrev].nTime)
  }

  function NextRequired(chain: seq<Blk>, proofOfStake: bool): nat { GetCompact(NextTarget(chain, proofOfStake)) }

  method ComputeTarget(chain: seq<Blk>, proofOfStake: bool) returns (bnNew: nat)
    ensures bnNew == NextTarget(chain, proofOfStake)
  {
    if chain == [] || |chain| - 1 == RESET_HEIGHT {
      return LIMIT;
    }
    var prev := GetLastBlockIndex(chain, |chain| - 1, proofOfStake);
    if prev == 0 {
      return LIMIT;
    }
    var prevPrev := GetLastBlockIndex(chain, prev - 1, proofOfStake);
    if prevPrev == 0 {
      return LIMIT;
    }
    bnNew := MoveTarget(|chain|, SetCompact(chain[prev].nBits), chain[prev].nTime - chain[prevPrev].nTime);
  }

  method GetNextTargetRequired(chain: seq<Blk>, proofOfStake: bool) returns (nBits: nat)
    ensures nBits == NextRequired(chain, proofOfStake)
  {
    var bnNew := ComputeTarget(chain, proofOfStake);
    nBits := GetCompact(bnNew);
  }

  method MoveTarget(height: nat, t: int, nSpacing: int) returns (r: nat)
    ensures r == NextFrom(height, t, nSpacing)
  {
    var nActualSpacing := nSpacing;
    if nActualSpacing < 0 {
      nActualSpacing := Spacing(height);
    }
    var bnNew := Moved(t, Spacing(height), nActualSpacing);
    if bnNew <= 0 || bnNew > LIMIT {
      bnNew := LIMIT;
    }
    r := bnNew;
  }

  // ---------------------------------------------------------------- bounds

  lemma MulAssoc(a: int, b: int, c: int)
    ensures a * b * c == a * (b * c)
  {}

  lemma {:induction false} PowAdd(b: nat, m: nat, n: nat)
    ensures Pow(b, m + n) == Pow(b, m) * Pow(b, n)
  {
    if n > 0 {
      PowAdd(b, m, n - 1);
      MulAssoc(Pow(b, m), Pow(b, n - 1), b);
      calc {
        Pow(b, m + n);
        Pow(b, m + (n - 1)) * b;
        Pow(b, m) * Pow(b, n - 1) * b;
        Pow(b, m) * Pow(b, n);
      }
    }
  }

  lemma LimitFits()
    ensures LIMIT < Pow(256, 30)
  {
    assert Pow(256, 5) == 0x100_0000_0000;
    PowAdd(256, 5, 5);
    PowAdd(256, 10, 10);
    PowAdd(256, 20, 10);
  }

  /** Targets up to the limit fit the compact form. */
  lemma TargetFits(x: nat)
    requires 0 < x <= LIMIT
    ensures |Mpi(x)| < 256
  {
    LimitFits();
    DigitsBound(256, x, 30);
  }

  /** Every required target is positive and within the limit, and differs from the computed
      one by less than a 2^-15 part. */
  lemma RequiredInRange(chain: seq<Blk>, proofOfStake: bool)
    ensures var x := NextTarget(chain, proofOfStake); var y := SetCompact(NextRequired(chain, proofOfStake));
      0 < y <= x <= LIMIT && x * 0x7FFF < y * 0x8000
  {
    TargetFits(NextTarget(chain, proofOfStake));
    CompactRound(NextTarget(chain, proofOfStake));
  }

  /** Every block carries the target required of it, as AcceptBlock demands. */
  ghost predicate Accepted(chain: seq<Blk>) {
    forall i {:trigger chain[i]} :: 0 <= i < |chain|
      ==> chain[i].nBits == NextRequired(chain[..i], chain[i].proofOfStake)
  }

  lemma AcceptedTarget(chain: seq<Blk>, i: nat)
    requires Accepted(chain) && i < |chain|
    ensures 0 < SetCompact(chain[i].nBits) <= LIMIT
  {
    RequiredInRange(chain[..i], chain[i].proofOfStake);
  }

  lemma QuotientAtLeast(n: nat, d: nat, k: nat)
    requires d > 0 && k * d <= n
    ensures n / d >= k
  {
    var q := n / d;
    assert n == q * d + n % d && (q + 1) * d == q * d + d;
    if q < k { Scale(q + 1, k, d); }
  }

  /** A larger factor gives a larger quotient. */
  lemma DivideMore(t: nat, f: nat, f0: nat, d: nat)
    requires d > 0 && f0 <= f
    ensures t * f0 / d <= t * f / d
  {
    Scale(f0, f, t);
    assert t * f0 == f0 * t && t * f == f * t;
    var q := t * f0 / d;
    assert t * f0 == q * d + t * f0 % d;
    QuotientAtLeast(t * f, d, q);
  }

  lemma MovedAtLeast(t: nat, actual: nat)
    ensures Moved(t, TARGET_SPACING, actual) >= 5 * t / 7
  {
    DivideMore(t, 750 + actual + actual, 750, 1050);
    assert t * 750 / 1050 == 5 * t / 7;
  }

  lemma NextFromAtLeast(height: nat, t: nat, actual: int)
    requires height >= HARD_FORK_BLOCK && 0 < t <= LIMIT
    ensures 5 * t / 7 <= NextFrom(height, t, actual)
  {
    MovedAtLeast(t, if actual < 0 then TARGET_SPACING else actual);
  }

  lemma NextTargetAtLeast(chain: seq<Blk>, proofOfStake: bool, prev: nat)
    requires |chain| >= HARD_FORK_BLOCK && prev == LastIndex(chain, |chain| - 1, proofOfStake)
    requires 0 < SetCompact(chain[prev].nBits) <= LIMIT
    ensures 5 * SetCompact(chain[prev].nBits) / 7 <= NextTarget(chain, proofOfStake)
  {
    if prev > 0 {
      var prevPrev := LastIndex(chain, prev - 1, proofOfStake);
      NextFromAtLeast(|chain|, SetCompact(chain[prev].nBits), chain[prev].nTime - chain[prevPrev].nTime);
    }
  }

  lemma LossAtMost(f: nat, x: nat, y: nat)
    requires f <= x && x * 0x7FFF < y * 0x8000
    ensures f * 0x7FFF <= y * 0x8000
  {}

  /** After the fork a target shrinks per block to no less than 5/7 of the last one of its
      kind, up to the loss of the compact form. */
  lemma ShrinkBound(chain: seq<Blk>, proofOfStake: bool)
    requires Accepted(chain) && |chain| >= HARD_FORK_BLOCK
    ensures var t := SetCompact(chain[LastIndex(chain, |chain| - 1, proofOfStake)].nBits);
      t > 0 && (5 * t / 7) * 0x7FFF <= SetCompact(NextRequired(chain, proofOfStake)) * 0x8000
  {
    var prev := LastIndex(chain, |chain| - 1, proofOfStake);
    AcceptedTarget(chain, prev);
    NextTargetAtLeast(chain, proofOfStake, prev);
    RequiredInRange(chain, proofOfStake);
    LossAtMost(5 * SetCompact(chain[prev].nBits) / 7, NextTarget(chain, proofOfStake),
      SetCompact(NextRequired(chain, proofOfStake)));
  }

  // ---------------------------------------------------------------- the target follows the time

  /** Blocks `prevPrev` and `prev` are the last two of the kind, and neither is the genesis block. */
  ghost predicate LastTwo(chain: seq<Blk>, proofOfStake: bool, prevPrev: nat, prev: nat) {
    && 0 < prevPrev < prev < |chain|
    && chain[prevPrev].proofOfStake == proofOfStake && chain[prev].proofOfStake == proofOfStake
    && forall j :: prevPrev < j < |chain| && j != prev ==> chain[j].proofOfStake != proofOfStake
  }

  /** The retarget rule as a fraction: a target t and a gap of a seconds give t * (n + 2 * a) / d. */
  function Factor(height: nat, a: nat): nat { if height >= 112200 then 750 + 2 * a else 600 + 2 * a }
  function Divisor(height: nat): nat { if height >= 112200 then 1050 else 1200 }

  lemma QuotientIs(n: nat, d: nat)
    requires d > 0
    ensures n / d * d <= n < (n / d + 1) * d
  {}

  /** The new target before it is clamped, by multiplications only. */
  lemma MovedIs(height: nat, t: nat, a: nat)
    ensures var x := Moved(t, Spacing(height), a);
      x >= 0 && x * Divisor(height) <= t * Factor(height, a) < (x + 1) * Divisor(height)
  {
    QuotientIs(t * Factor(height, a), Divisor(height));
  }

  lemma LastTwoAre(chain: seq<Blk>, proofOfStake: bool, prevPrev: nat, prev: nat)
    requires LastTwo(chain, proofOfStake, prevPrev, prev) && |chain| - 1 != RESET_HEIGHT
    ensures NextTarget(chain, proofOfStake)
      == NextFrom(|chain|, SetCompact(chain[prev].nBits), chain[prev].nTime - chain[prevPrev].nTime)
  {
    assert LastIndex(chain, |chain| - 1, proofOfStake) == prev;
    assert LastIndex(chain, prev - 1, proofOfStake) == prevPrev;
  }

  /** The first two blocks of a kind, and the one after the reset height, have the limit. */
  lemma LimitAtStart(chain: seq<Blk>, proofOfStake: bool)
    requires |chain| - 1 == 11816 || forall i, j {:trigger LastTwo(chain, proofOfStake, i, j)} ::
      !LastTwo(chain, proofOfStake, i, j)
    ensures NextTarget(chain, proofOfStake) == LIMIT
  {
    if chain != [] && |chain| - 1 != 11816 {
      var prev := LastIndex(chain, |chain| - 1, proofOfStake);
      if prev > 0 {
        var prevPrev := LastIndex(chain, prev - 1, proofOfStake);
        assert !LastTwo(chain, proofOfStake, prevPrev, prev);
      }
    }
  }

  /** For a gap a >= 0 between the last two blocks the target is the floor of t * (n + 2 * a) / d, or the
      limit if that is beyond it or 0. Times in descending order leave the target alone. */
  lemma TargetIs(chain: seq<Blk>, proofOfStake: bool, prevPrev: nat, prev: nat)
    requires LastTwo(chain, proofOfStake, prevPrev, prev) && |chain| - 1 != RESET_HEIGHT
    requires 0 < SetCompact(chain[prev].nBits) <= LIMIT
    ensures var t, a, x := SetCompact(chain[prev].nBits), chain[prev].nTime - chain[prevPrev].nTime,
        NextTarget(chain, proofOfStake);
      && (a < 0 ==> x == t)
      && (a >= 0 && x < LIMIT && |chain| >= 112200 ==> x * 1050 <= t * (750 + 2 * a) < (x + 1) * 1050)
      && (a >= 0 && x < LIMIT && |chain| < 112200 ==> x * 1200 <= t * (600 + 2 * a) < (x + 1) * 1200)
      && (a >= 0 ==> (x == LIMIT <==>
        || t * Factor(|chain|, a) >= LIMIT * Divisor(|chain|) || t * Factor(|chain|, a) < Divisor(|chain|)))
  {
    LastTwoAre(chain, proofOfStake, prevPrev, prev);
    FromIs(|chain|, SetCompact(chain[prev].nBits), chain[prev].nTime - chain[prevPrev].nTime);
  }

  lemma FromIs(height: nat, t: nat, a: int)
    requires 0 < t <= LIMIT
    ensures var x := NextFrom(height, t, a);
      && (a < 0 ==> x == t)
      && (a >= 0 && x < LIMIT ==> x * Divisor(height) <= t * Factor(height, a) < (x + 1) * Divisor(height))
      && (a >= 0 ==> (x == LIMIT <==>
        t * Factor(height, a) >= LIMIT * Divisor(height) || t * Factor(height, a) < Divisor(height)))
  {
    if a < 0 {
      assert Factor(height, Spacing(height)) == Divisor(height);
      MovedIs(height, t, Spacing(height));
      Between(Moved(t, Spacing(height), Spacing(height)), t, Divisor(height));
    } else {
      var m := Moved(t, Spacing(height), a);
      MovedIs(height, t, a);
      FloorIs(m, t * Factor(height, a), Divisor(height));
    }
  }

  lemma Between(x: nat, t: nat, d: nat)
    requires d > 0 && x * d <= t * d < (x + 1) * d
    ensures x == t
  {
    Cancel(t, x, d);
    Cancel(x, t, d);
  }

  lemma Cancel(a: nat, b: nat, d: nat)
    requires d > 0 && a * d < (b + 1) * d
    ensures a <= b
  {
    if a > b { Scale(b + 1, a, d); }
  }

  /** Comparing a floor with the limit and with 0. */
  lemma FloorIs(m: nat, n: nat, d: nat)
    requires d > 0 && m * d <= n < (m + 1) * d
    ensures m >= LIMIT <==> n >= LIMIT * d
    ensures m == 0 <==> n < d
  {
    if m >= LIMIT { Scale(LIMIT, m, d); } else { Scale(m + 1, LIMIT, d); }
    if m > 0 { Scale(1, m, d); }
  }

  /** A longer time between the last two blocks than intended never lowers the target; a shorter one
      never raises it, but for a target of 1, which goes to the limit. */
  lemma TargetFollows(chain: seq<Blk>, proofOfStake: bool, prevPrev: nat, prev: nat)
    requires LastTwo(chain, proofOfStake, prevPrev, prev) && |chain| - 1 != RESET_HEIGHT
    requires 0 < SetCompact(chain[prev].nBits) <= LIMIT
    ensures var t, a, x := SetCompact(chain[prev].nBits), chain[prev].nTime - chain[prevPrev].nTime,
        NextTarget(chain, proofOfStake);
      var spacing := if |chain| >= 112200 then 150 else 300;
      && (a >= spacing ==> x >= t)
      && (0 <= a < spacing ==> (x <= t <==> t > 1 || t == LIMIT))
      && (a == spacing ==> x == t)
  {
    LastTwoAre(chain, proofOfStake, prevPrev, prev);
    var t, a := SetCompact(chain[prev].nBits), chain[prev].nTime - chain[prevPrev].nTime;
    if a >= 0 { FromFollows(|chain|, t, a); }
  }

  lemma FromFollows(height: nat, t: nat, a: nat)
    requires 0 < t <= LIMIT
    ensures var x := NextFrom(height, t, a);
      && (a >= Spacing(height) ==> x >= t)
      && (a < Spacing(height) ==> (x <= t <==> t > 1 || t == LIMIT))
      && (a == Spacing(height) ==> x == t)
  {
    var m, d, f := Moved(t, Spacing(height), a), Divisor(height), Factor(height, a);
    MovedIs(height, t, a);
    if a == Spacing(height) { Between(m, t, d); }
    if a >= Spacing(height) {
      Scale(d, f, t);
      Cancel(t, m, d);
    } else {
      Scale(f, d, t);
      Cancel(m, t, d);
      FloorIs(m, t * f, d);
      if t > 1 { NotNothing(height, t, a); }
    }
  }

  /** A longer time gives a target at least as large, but for a target of 1 that a shorter time than
      intended sends to the limit. */
  lemma LongerIsEasier(chain: seq<Blk>, chain': seq<Blk>, proofOfStake: bool, i: nat, j: nat, i': nat, j': nat)
    requires |chain| == |chain'| && |chain| - 1 != RESET_HEIGHT
    requires LastTwo(chain, proofOfStake, i, j) && LastTwo(chain', proofOfStake, i', j')
    requires SetCompact(chain[j].nBits) == SetCompact(chain'[j'].nBits) && 0 < SetCompact(chain[j].nBits) <= LIMIT
    requires 0 <= chain[j].nTime - chain[i].nTime <= chain'[j'].nTime - chain'[i'].nTime
    ensures NextTarget(chain, proofOfStake) <= NextTarget(chain', proofOfStake)
      || (SetCompact(chain[j].nBits) == 1 && chain[j].nTime - chain[i].nTime < Spacing(|chain|))
  {
    LastTwoAre(chain, proofOfStake, i, j);
    LastTwoAre(chain', proofOfStake, i', j');
    FromGrows(|chain|, SetCompact(chain[j].nBits), chain[j].nTime - chain[i].nTime,
      chain'[j'].nTime - chain'[i'].nTime);
  }

  lemma FromGrows(height: nat, t: nat, a: nat, a': nat)
    requires 0 < t <= LIMIT && a <= a'
    ensures NextFrom(height, t, a) <= NextFrom(height, t, a') || (t == 1 && a < Spacing(height))
  {
    MovedGrows(height, t, a, a');
    if t > 1 || a >= Spacing(height) { MovedPositive(height, t, a); }
    hide Moved;
  }

  lemma MovedGrows(height: nat, t: nat, a: nat, a': nat)
    requires a <= a'
    ensures Moved(t, Spacing(height), a) <= Moved(t, Spacing(height), a')
  {
    DivideMore(t, Factor(height, a'), Factor(height, a), Divisor(height));
  }

  lemma MovedPositive(height: nat, t: nat, a: nat)
    requires t > 1 || (t == 1 && a >= Spacing(height))
    ensures Moved(t, Spacing(height), a) > 0
  {
    MovedIs(height, t, a);
    NotNothing(height, t, a);
    FloorIs(Moved(t, Spacing(height), a), t * Factor(height, a), Divisor(height));
  }

  lemma NotNothing(height: nat, t: nat, a: nat)
    requires t > 1 || (t == 1 && a >= Spacing(height))
    ensures t * Factor(height, a) >= Divisor(height)
  {
    if t > 1 {
      assert 2 * Factor(height, a) >= Divisor(height);
      Scale(2, t, Factor(height, a));
    }
  }

  // ---------------------------------------------------------------- trust

  const TWO256: nat := 0x10000000000000000000000000000000000000000000000000000000000000000

  function BlockTrust(nBits: nat): nat {
    var t := SetCompact(nBits);
    if t <= 0 then 0 else TWO256 / (t + 1)
  }

  function ChainTrust(chain: seq<Blk>): nat {
    if chain == [] then 0 else ChainTrust(chain[..|chain| - 1]) + BlockTrust(chain[|chain| - 1].nBits)
  }

  lemma TrustAtLeast(nBits: nat)
    requires 0 < SetCompact(nBits) <= LIMIT
    ensures BlockTrust(nBits) >= 0x100000
  {
    assert TWO256 == 0x100000 * (LIMIT + 1);
    QuotientAtLeast(TWO256, SetCompact(nBits) + 1, 0x100000);
  }

  /** The trust of a block is how often its target, and one more, goes into 2^256. */
  lemma BlockTrustIs(nBits: nat)
    ensures var t, x := SetCompact(nBits), BlockTrust(nBits);
      && (t <= 0 ==> x == 0)
      && (t > 0 ==> x * (t + 1) <= TWO256 < (x + 1) * (t + 1))
  {
    var t := SetCompact(nBits);
    if t > 0 { QuotientIs(TWO256, t + 1); }
  }

  /** A smaller target never has less trust. */
  lemma HarderIsHeavier(a: nat, b: nat)
    requires 0 < SetCompact(a) <= SetCompact(b)
    ensures BlockTrust(a) >= BlockTrust(b)
  {
    hide SetCompact;
    LessGoesMore(TWO256, SetCompact(a) + 1, SetCompact(b) + 1);
  }

  lemma LessGoesMore(n: nat, d: nat, e: nat)
    requires 0 < d <= e
    ensures n / d >= n / e
  {
    QuotientIs(n, e);
    Scale(d, e, n / e);
    assert n / e * d == d * (n / e) && n / e * e == e * (n / e);
    QuotientAtLeast(n, d, n / e);
  }

  /** Chain trust rises by at least 2^20 with every accepted block. */
  lemma TrustRises(chain: seq<Blk>, i: nat)
    requires Accepted(chain) && i < |chain|
    ensures ChainTrust(chain[..i + 1]) >= ChainTrust(chain[..i]) + 0x100000
  {
    AcceptedTarget(chain, i);
    TrustAtLeast(chain[i].nBits);
    TrustStep(chain, i);
  }

  lemma TrustStep(chain: seq<Blk>, i: nat)
    requires i < |chain|
    ensures ChainTrust(chain[..i + 1]) == ChainTrust(chain[..i]) + BlockTrust(chain[i].nBits)
  {
    assert chain[..i + 1][..i] == chain[..i];
  }
}
