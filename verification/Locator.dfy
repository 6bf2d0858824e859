/** Block locators (src/main.h: CBlockLocator::Set, GetDistanceBack, GetBlockIndex). */
module Locator {
  import opened Basics
  import opened Transactions
  import opened Inputs
  import opened Blocks
  import opened BlockTree

  /** The distance of entry `i` from the block the locator is made for. */
  function Dist(i: nat): nat { if i <= 11 then i else 9 + Pow2(i - 10) }

  /** The step from entry `i` to the next. */
  function StepAt(i: nat): nat { if i <= 10 then 1 else Pow2(i - 10) }

  lemma DistStep(i: nat)
    ensures Dist(i + 1) == Dist(i) + StepAt(i)
    ensures StepAt(i + 1) == if i >= 10 then 2 * StepAt(i) else StepAt(i)
    ensures Dist(i) > 10 <==> i > 10
  {
    if i == 11 { assert Pow2(2) == 4 && Pow2(1) == 2; }
  }

  lemma {:induction false} DistGrows(i: nat, j: nat)
    requires i < j
    ensures Dist(i) < Dist(j)
    decreases j
  {
    DistStep(j - 1);
    if i < j - 1 { DistGrows(i, j - 1); }
  }

  /** From entry 12 on, a distance is less than twice the one before. */
  lemma DistDoubles(i: nat)
    requires i >= 11
    ensures Dist(i + 1) == 2 * Dist(i) - 9
  {
    if i == 11 { assert Pow2(2) == 4; }
  }

  /** The first entries of `v` are the ancestors of `h` at the locator distances. */
  ghost predicate Lists(t: Tree, g: Hash, h: Hash, v: seq<Hash>, n: nat)
    requires TreeOk(t, g) && h in t
  {
    n <= |v| && forall i {:trigger ListedAt(t, g, h, v, i)} :: 0 <= i < n ==> ListedAt(t, g, h, v, i)
  }

  ghost predicate ListedAt(t: Tree, g: Hash, h: Hash, v: seq<Hash>, i: nat)
    requires TreeOk(t, g) && h in t
  {
    i < |v| && Dist(i) <= t[h].nHeight && v[i] == Up(t, g, h, t[h].nHeight - Dist(i))
  }

  /** Go back `n` blocks, if there are so many. */
  method Back(t: Tree, ghost g: Hash, ghost h: Hash, from: Hash, n: nat) returns (p: Option<Hash>)
    requires TreeOk(t, g) && h in t && Above(t, g, from, h)
    ensures p == if n <= t[from].nHeight then Some(Up(t, g, h, t[from].nHeight - n)) else None
  {
    p := Some(from);
    var i := 0;
    while p.Some? && i < n
      invariant i <= n
      invariant p == if i <= t[from].nHeight then Some(Up(t, g, h, t[from].nHeight - i)) else None
    {
      if i < t[from].nHeight { UpStep(t, g, h, t[from].nHeight - i); }
      assert t[p.value].nHeight == t[from].nHeight - i;
      if t[p.value].nHeight > 0 { assert HasParent(t, p.value); } else { assert p.value == g || HasParent(t, p.value); }
      p := t[p.value].prev;
      i := i + 1;
    }
  }

  /** CBlockLocator::Set. The loop lists the ancestors at the distances 0 to 11, then 9 + 2^k;
      the genesis block ends the list. */
  method Set(t: Tree, g: Hash, h: Hash) returns (vHave: seq<Hash>)
    requires TreeOk(t, g) && h in t
    ensures |vHave| > 1 && vHave[|vHave| - 1] == g && Lists(t, g, h, vHave, |vHave| - 1)
    ensures t[h].nHeight < Dist(|vHave| - 1)
  {
    vHave := [];
    var nStep := 1;
    var p := Some(h);
    ghost var height := t[h].nHeight;
    while p.Some?
      invariant Lists(t, g, h, vHave, |vHave|) && nStep == StepAt(|vHave|)
      invariant p == if Dist(|vHave|) <= height then Some(Up(t, g, h, height - Dist(|vHave|))) else None
      invariant p.None? ==> vHave != []
      decreases if p.Some? then t[p.value].nHeight + 1 else 0
    {
      DistStep(|vHave|);
      ghost var was := vHave;
      vHave := vHave + [p.value];
      forall i | 0 <= i < |vHave|
        ensures ListedAt(t, g, h, vHave, i)
      {
        if i < |was| { assert ListedAt(t, g, h, was, i); }
      }
      p := Back(t, g, h, p.value, nStep);
      if |vHave| > 10 { nStep := nStep * 2; }
    }
    ghost var listed := vHave;
    vHave := vHave + [g];
    forall i | 0 <= i < |listed| ensures ListedAt(t, g, h, vHave, i) { assert ListedAt(t, g, h, listed, i); }
  }

  /** Entry `i` is the first one in `main`, the indexed blocks of the receiver's main chain. */
  ghost predicate FirstIn(v: seq<Hash>, main: set<Hash>, i: int) {
    0 <= i < |v| && v[i] in main && forall j :: 0 <= j < i ==> v[j] !in main
  }

  method GetDistanceBack(vHave: seq<Hash>, main: set<Hash>) returns (nDistance: nat)
    ensures forall i :: FirstIn(vHave, main, i) ==> nDistance == Dist(i)
    ensures (forall j :: 0 <= j < |vHave| ==> vHave[j] !in main) ==> nDistance == Dist(|vHave|)
  {
    nDistance := 0;
    var nStep := 1;
    for i := 0 to |vHave|
      invariant nDistance == Dist(i) && nStep == StepAt(i)
      invariant forall j :: 0 <= j < i ==> vHave[j] !in main
    {
      if vHave[i] in main {
        return;
      }
      DistStep(i);
      DistStep(i + 1);
      nDistance := nDistance + nStep;
      if nDistance > 10 { nStep := nStep * 2; }
    }
  }

  method GetBlockIndex(vHave: seq<Hash>, main: set<Hash>, genesis: Hash) returns (p: Hash)
    ensures forall i :: FirstIn(vHave, main, i) ==> p == vHave[i]
    ensures (forall j :: 0 <= j < |vHave| ==> vHave[j] !in main) ==> p == genesis
  {
    for i := 0 to |vHave|
      invariant forall j :: 0 <= j < i ==> vHave[j] !in main
    {
      if vHave[i] in main {
        return vHave[i];
      }
    }
    return genesis;
  }

  // ---------------------------------------------------------------- finding the fork

  /** The sender's chain below height `f` inclusive is the part shared with the receiver. */
  ghost predicate SharedTo(t: Tree, g: Hash, h: Hash, main: set<Hash>, f: nat)
    requires TreeOk(t, g) && h in t && f <= t[h].nHeight
  {
    forall k {:trigger Up(t, g, h, k)} :: 0 <= k <= t[h].nHeight ==> (Up(t, g, h, k) in main <==> k <= f)
  }

  /** How far back the found block is: exactly at the fork if that is at most 11 blocks back,
      otherwise less than twice as far. */
  ghost predicate NearFork(back: nat, distance: nat) {
    back <= distance && (if back <= 11 then distance == back else distance < 2 * back)
  }

  lemma NearBy(i: nat, back: nat, distance: nat)
    requires back <= distance <= Dist(i) && (i > 0 ==> Dist(i - 1) < back)
    ensures NearFork(back, distance)
  {
    if i >= 12 {
      DistDoubles(i - 1);
      if i > 12 { DistGrows(11, i - 1); }
    }
  }

  lemma {:induction false} SomeIsFound(v: seq<Hash>, main: set<Hash>, n: nat) returns (i: nat)
    requires n < |v| && v[n] in main
    ensures FirstIn(v, main, i)
  {
    i := n;
    if k :| 0 <= k < n && v[k] in main { i := SomeIsFound(v, main, k); }
  }

  /** The receiver always finds a listed block of the shared part, since the genesis block is on
      every main chain; the first has the distance of the fork from `h`, or less than twice as far. */
  lemma FindsFork(t: Tree, g: Hash, h: Hash, v: seq<Hash>, main: set<Hash>, f: nat) returns (i: nat)
    requires TreeOk(t, g) && h in t && f <= t[h].nHeight && SharedTo(t, g, h, main, f)
    requires |v| > 1 && v[|v| - 1] == g && Lists(t, g, h, v, |v| - 1) && t[h].nHeight < Dist(|v| - 1)
    ensures FirstIn(v, main, i)
    ensures v[i] in t && Above(t, g, v[i], h) && NearFork(t[h].nHeight - f, t[h].nHeight - t[v[i]].nHeight)
    ensures i < |v| - 1 ==> t[h].nHeight - t[v[i]].nHeight == Dist(i)
  {
    GenesisAbove(t, g, h);
    assert Up(t, g, h, 0) == g && g in main;
    i := SomeIsFound(v, main, |v| - 1);
    if i > 0 { assert ListedAt(t, g, h, v, i - 1); }
    if i < |v| - 1 {
      assert ListedAt(t, g, h, v, i);
    }
    NearBy(i, t[h].nHeight - f, t[h].nHeight - t[v[i]].nHeight);
  }

  /** Both trees know the blocks they share by the same parent and height. */
  ghost predicate Agree(t: Tree, t': Tree) {
    forall x :: x in t && x in t' ==> t'[x].prev == t[x].prev && t'[x].nHeight == t[x].nHeight
  }

  /** The blocks a receiver has indexed and for which IsInMainChain holds. */
  ghost function MainOf(t: Tree, pnext: map<Hash, Hash>, best: Hash): set<Hash> {
    set x | x in t && IsInMainChain(pnext, best, x)
  }

  /** The shared part of a chain reaches down to genesis. */
  lemma {:induction false} SharedIsClosed(t: Tree, g: Hash, h: Hash, t': Tree, pnext: map<Hash, Hash>, best: Hash,
    k: nat, j: nat)
    requires TreeOk(t, g) && h in t && TreeOk(t', g) && best in t' && LinksTo(t', g, pnext, best) && Agree(t, t')
    requires j <= k <= t[h].nHeight && Up(t, g, h, k) in MainOf(t', pnext, best)
    ensures Up(t, g, h, j) in MainOf(t', pnext, best)
    decreases k
  {
    if j < k {
      var x := Up(t, g, h, k);
      UpStep(t, g, h, k);
      var y := t[x].prev.value;
      InMainChainMeans(t', g, pnext, best, x);
      ParentAbove(t', g, x);
      AboveTrans(t', g, y, x, best);
      InMainChainMeans(t', g, pnext, best, y);
      SharedIsClosed(t, g, h, t', pnext, best, k - 1, j);
    }
  }

  /** So there is a fork height, for every sender and every receiver. */
  lemma {:induction false} ForkExists(t: Tree, g: Hash, h: Hash, t': Tree, pnext: map<Hash, Hash>, best: Hash, top: nat)
    requires TreeOk(t, g) && h in t && TreeOk(t', g) && best in t' && LinksTo(t', g, pnext, best) && Agree(t, t')
    requires top <= t[h].nHeight
    requires forall k {:trigger Up(t, g, h, k)} ::
      top < k <= t[h].nHeight ==> Up(t, g, h, k) !in MainOf(t', pnext, best)
    ensures exists f: nat :: f <= t[h].nHeight && SharedTo(t, g, h, MainOf(t', pnext, best), f)
    decreases top
  {
    var main := MainOf(t', pnext, best);
    if Up(t, g, h, top) in main {
      forall k: nat | k <= t[h].nHeight ensures Up(t, g, h, k) in main <==> k <= top {
        if k <= top { SharedIsClosed(t, g, h, t', pnext, best, top, k); }
      }
      assert SharedTo(t, g, h, main, top);
    } else if top == 0 {
      GenesisAbove(t, g, h);
      GenesisAbove(t', g, best);
      InMainChainMeans(t', g, pnext, best, g);
    } else {
      ForkExists(t, g, h, t', pnext, best, top - 1);
    }
  }
}
