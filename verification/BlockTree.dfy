/** The block tree: parent links, heights, ancestors and forward links along the main
    chain (src/main.h: CBlockIndex; src/main.cpp: Reorganize, FindBlockByHeight). */
module BlockTree {
  import opened Basics
  import opened Transactions
  import opened Blocks
  import opened Inputs

  /** CBlockIndex without its mutable fields; `prev` is pprev. */
  datatype Node = Node(prev: Option<Hash>, nHeight: nat, nChainTrust: nat, block: Block, file: nat, blockPos: nat)

  type Tree = map<Hash, Node>

  /** Genesis `g` is the only root, and heights count the steps from it. */
  ghost predicate TreeOk(t: Tree, g: Hash) {
    && g in t && t[g].prev.None? && t[g].nHeight == 0
    && forall h {:trigger HasParent(t, h)} :: h in t && h != g ==> HasParent(t, h)
  }

  predicate HasParent(t: Tree, h: Hash)
    requires h in t
  {
    && t[h].prev.Some?
    && t[h].prev.value in t
    && t[h].nHeight == t[t[h].prev.value].nHeight + 1
  }

  /** The ancestor of `h` at height `k`. */
  ghost function Up(t: Tree, g: Hash, h: Hash, k: nat): (r: Hash)
    requires TreeOk(t, g) && h in t && k <= t[h].nHeight
    ensures r in t && t[r].nHeight == k
    decreases t[h].nHeight
  {
    if t[h].nHeight == k then h
    else
      assert h != g && HasParent(t, h);
      Up(t, g, t[h].prev.value, k)
  }

  /** `a` is `h` or one of its ancestors. */
  ghost predicate Above(t: Tree, g: Hash, a: Hash, h: Hash)
    requires TreeOk(t, g) && h in t
  {
    a in t && t[a].nHeight <= t[h].nHeight && Up(t, g, h, t[a].nHeight) == a
  }

  lemma {:induction false} UpUp(t: Tree, g: Hash, h: Hash, j: nat, k: nat)
    requires TreeOk(t, g) && h in t && k <= j <= t[h].nHeight
    ensures Up(t, g, Up(t, g, h, j), k) == Up(t, g, h, k)
    decreases t[h].nHeight
  {
    if j < t[h].nHeight {
      assert HasParent(t, h);
      UpUp(t, g, t[h].prev.value, j, k);
    }
  }

  lemma AboveTrans(t: Tree, g: Hash, a: Hash, b: Hash, c: Hash)
    requires TreeOk(t, g) && c in t && Above(t, g, b, c) && Above(t, g, a, b)
    ensures Above(t, g, a, c)
  {
    UpUp(t, g, c, t[b].nHeight, t[a].nHeight);
  }

  lemma {:induction false} GenesisAbove(t: Tree, g: Hash, h: Hash)
    requires TreeOk(t, g) && h in t
    ensures Above(t, g, g, h)
    decreases t[h].nHeight
  {
    if h != g {
      assert HasParent(t, h);
      GenesisAbove(t, g, t[h].prev.value);
    }
  }

  lemma ParentAbove(t: Tree, g: Hash, h: Hash)
    requires TreeOk(t, g) && h in t && h != g
    ensures HasParent(t, h) && Above(t, g, t[h].prev.value, h)
  {
    assert HasParent(t, h);
  }

  /** Growing the tree by a leaf changes no ancestor. */
  lemma {:induction false} UpExtend(t: Tree, g: Hash, n: Hash, node: Node, h: Hash, k: nat)
    requires TreeOk(t, g) && n !in t && TreeOk(t[n := node], g) && h in t && k <= t[h].nHeight
    ensures Up(t[n := node], g, h, k) == Up(t, g, h, k)
    decreases t[h].nHeight
  {
    if k < t[h].nHeight {
      assert HasParent(t, h);
      UpExtend(t, g, n, node, t[h].prev.value, k);
    }
  }

  // ---------------------------------------------------------------- the fork

  /** `f` is the lowest common ancestor of `a` and `b`. */
  ghost predicate IsFork(t: Tree, g: Hash, f: Hash, a: Hash, b: Hash)
    requires TreeOk(t, g) && a in t && b in t
  {
    && Above(t, g, f, a) && Above(t, g, f, b)
    && forall c :: c in t && Above(t, g, c, a) && Above(t, g, c, b) ==> Above(t, g, c, f)
  }

  /** Both walkers still have all common ancestors of `a` and `b` above them. */
  ghost predicate KeepsCommon(t: Tree, g: Hash, a: Hash, b: Hash, x: Hash, y: Hash)
    requires TreeOk(t, g) && a in t && b in t
  {
    && Above(t, g, x, a) && Above(t, g, y, b)
    && forall c :: c in t && Above(t, g, c, a) && Above(t, g, c, b) ==> Above(t, g, c, x) && Above(t, g, c, y)
  }

  lemma StepLonger(t: Tree, g: Hash, a: Hash, b: Hash, x: Hash, y: Hash)
    requires TreeOk(t, g) && a in t && b in t && KeepsCommon(t, g, a, b, x, y)
    requires t[y].nHeight > t[x].nHeight
    ensures HasParent(t, y) && KeepsCommon(t, g, a, b, x, t[y].prev.value)
  {
    ParentAbove(t, g, y);
    AboveTrans(t, g, t[y].prev.value, y, b);
  }

  lemma StepFork(t: Tree, g: Hash, a: Hash, b: Hash, x: Hash, y: Hash)
    requires TreeOk(t, g) && a in t && b in t && KeepsCommon(t, g, a, b, x, y)
    requires t[y].nHeight <= t[x].nHeight && x != y
    ensures HasParent(t, x) && KeepsCommon(t, g, a, b, t[x].prev.value, y)
  {
    if x == g { GenesisAbove(t, g, y); }
    ParentAbove(t, g, x);
    AboveTrans(t, g, t[x].prev.value, x, a);
  }

  /** The first loop of Reorganize. The two error returns of the source, for a missing
      parent, are not reached in a proper tree. */
  method FindFork(t: Tree, ghost g: Hash, best: Hash, longer: Hash) returns (pfork: Hash)
    requires TreeOk(t, g) && best in t && longer in t
    ensures IsFork(t, g, pfork, best, longer)
  {
    pfork := best;
    var plonger := longer;
    while pfork != plonger
      invariant KeepsCommon(t, g, best, longer, pfork, plonger)
      decreases t[pfork].nHeight + t[plonger].nHeight
    {
      ghost var before := plonger;
      while t[plonger].nHeight > t[pfork].nHeight
        invariant KeepsCommon(t, g, best, longer, pfork, plonger)
        invariant t[plonger].nHeight <= t[before].nHeight
        decreases t[plonger].nHeight
      {
        StepLonger(t, g, best, longer, pfork, plonger);
        plonger := t[plonger].prev.value;
      }
      if pfork == plonger {
        break;
      }
      StepFork(t, g, best, longer, pfork, plonger);
      pfork := t[pfork].prev.value;
    }
  }

  lemma ForkShared(t: Tree, g: Hash, a: Hash, b: Hash, x: Hash, y: Hash, f: Hash)
    requires TreeOk(t, g) && a in t && b in t && KeepsCommon(t, g, a, b, x, y) && IsFork(t, g, f, x, y)
    ensures IsFork(t, g, f, a, b)
  {
    AboveTrans(t, g, f, x, a);
    AboveTrans(t, g, f, y, b);
  }

  /** The lowest common ancestor of `a` and `b`. */
  ghost function Fork(t: Tree, g: Hash, a: Hash, b: Hash): (f: Hash)
    requires TreeOk(t, g) && a in t && b in t
    ensures IsFork(t, g, f, a, b)
    decreases t[a].nHeight + t[b].nHeight
  {
    if a == b then a
    else if t[b].nHeight > t[a].nHeight then
      StepLonger(t, g, a, b, a, b);
      var f := Fork(t, g, a, t[b].prev.value);
      ForkShared(t, g, a, b, a, t[b].prev.value, f);
      f
    else
      StepFork(t, g, a, b, a, b);
      var f := Fork(t, g, t[a].prev.value, b);
      ForkShared(t, g, a, b, t[a].prev.value, b, f);
      f
  }

  lemma ForkUnique(t: Tree, g: Hash, f: Hash, a: Hash, b: Hash)
    requires TreeOk(t, g) && a in t && b in t && IsFork(t, g, f, a, b)
    ensures f == Fork(t, g, a, b)
  {
    var f' := Fork(t, g, a, b);
    assert Above(t, g, f, f') && Above(t, g, f', f);
  }

  /** `v` lists the blocks from `h` down to, but without, its ancestor `f`. */
  ghost predicate LeadsDown(t: Tree, g: Hash, h: Hash, f: Hash, v: seq<Hash>)
    requires TreeOk(t, g) && h in t
  {
    && Above(t, g, f, h)
    && |v| == t[h].nHeight - t[f].nHeight
    && forall i :: 0 <= i < |v| ==> v[i] == Up(t, g, h, t[h].nHeight - i)
  }

  /** `v` lists the same blocks in the opposite order. */
  ghost predicate LeadsUp(t: Tree, g: Hash, f: Hash, h: Hash, v: seq<Hash>)
    requires TreeOk(t, g) && h in t
  {
    && Above(t, g, f, h)
    && |v| == t[h].nHeight - t[f].nHeight
    && forall i :: 0 <= i < |v| ==> v[i] == Up(t, g, h, t[f].nHeight + 1 + i)
  }

  ghost function PathDown(t: Tree, g: Hash, h: Hash, f: Hash): (v: seq<Hash>)
    requires TreeOk(t, g) && h in t && Above(t, g, f, h)
    ensures LeadsDown(t, g, h, f, v)
  {
    var n: nat := t[h].nHeight - t[f].nHeight;
    seq<Hash>(n, i requires 0 <= i < n => Up(t, g, h, t[h].nHeight - i))
  }

  ghost function PathUp(t: Tree, g: Hash, f: Hash, h: Hash): (v: seq<Hash>)
    requires TreeOk(t, g) && h in t && Above(t, g, f, h)
    ensures LeadsUp(t, g, f, h, v)
  {
    var n: nat := t[h].nHeight - t[f].nHeight;
    seq<Hash>(n, i requires 0 <= i < n => Up(t, g, h, t[f].nHeight + 1 + i))
  }

  /** The way from `a` to `b` goes down through the blocks that are above `a` but not above `b`... */
  lemma DownIs(t: Tree, g: Hash, a: Hash, b: Hash, f: Hash, v: seq<Hash>, x: Hash)
    requires TreeOk(t, g) && a in t && b in t && IsFork(t, g, f, a, b) && LeadsDown(t, g, a, f, v)
    ensures x in v <==> Above(t, g, x, a) && !Above(t, g, x, b)
  {
    if x in v {
      var i :| 0 <= i < |v| && v[i] == x;
      assert t[x].nHeight == t[a].nHeight - i > t[f].nHeight;
    }
    if Above(t, g, x, a) && !Above(t, g, x, b) {
      if t[x].nHeight <= t[f].nHeight {
        UpUp(t, g, a, t[f].nHeight, t[x].nHeight);
        AboveTrans(t, g, x, f, b);
      }
      assert v[t[a].nHeight - t[x].nHeight] == x;
    }
  }

  /** ... and up through those above `b` but not above `a`. */
  lemma UpIs(t: Tree, g: Hash, a: Hash, b: Hash, f: Hash, v: seq<Hash>, x: Hash)
    requires TreeOk(t, g) && a in t && b in t && IsFork(t, g, f, a, b) && LeadsUp(t, g, f, b, v)
    ensures x in v <==> Above(t, g, x, b) && !Above(t, g, x, a)
  {
    if x in v {
      var i :| 0 <= i < |v| && v[i] == x;
      assert t[x].nHeight == t[f].nHeight + 1 + i;
    }
    if Above(t, g, x, b) && !Above(t, g, x, a) {
      if t[x].nHeight <= t[f].nHeight {
        UpUp(t, g, b, t[f].nHeight, t[x].nHeight);
        AboveTrans(t, g, x, f, a);
      }
      assert v[t[x].nHeight - t[f].nHeight - 1] == x;
    }
  }

  function StopAt(v: seq<Hash>, f: Hash, i: nat): Hash { if i < |v| then v[i] else f }

  lemma DownStart(t: Tree, g: Hash, h: Hash, f: Hash, v: seq<Hash>)
    requires TreeOk(t, g) && h in t && LeadsDown(t, g, h, f, v)
    ensures StopAt(v, f, 0) == h
  {}

  lemma DownStep(t: Tree, g: Hash, h: Hash, f: Hash, v: seq<Hash>, i: nat)
    requires TreeOk(t, g) && h in t && LeadsDown(t, g, h, f, v) && i < |v|
    ensures v[i] in t && v[i] != g && t[v[i]].prev == Some(StopAt(v, f, i + 1)) && Above(t, g, v[i], h)
  {
    UpStep(t, g, h, t[h].nHeight - i);
  }

  /** One more block on the way down. */
  lemma LeadsDownOn(t: Tree, g: Hash, h: Hash, f: Hash, v: seq<Hash>)
    requires TreeOk(t, g) && h in t && LeadsDown(t, g, h, f, v) && f != g
    ensures HasParent(t, f) && LeadsDown(t, g, h, t[f].prev.value, v + [f])
  {
    ParentAbove(t, g, f);
    AboveTrans(t, g, t[f].prev.value, f, h);
  }

  lemma UpwardStep(t: Tree, g: Hash, f: Hash, h: Hash, v: seq<Hash>, i: nat)
    requires TreeOk(t, g) && h in t && LeadsUp(t, g, f, h, v) && i < |v|
    ensures v[i] in t && v[i] != g && t[v[i]].nHeight == t[f].nHeight + 1 + i && Above(t, g, v[i], h)
    ensures t[v[i]].prev == Some(if i == 0 then f else v[i - 1])
    ensures |v| > 0 && v[|v| - 1] == h
  {
    UpStep(t, g, h, t[f].nHeight + 1 + i);
  }

  method ListUp(t: Tree, ghost g: Hash, h: Hash, f: Hash) returns (v: seq<Hash>)
    requires TreeOk(t, g) && h in t && Above(t, g, f, h)
    ensures LeadsUp(t, g, f, h, v)
  {
    var d := ListDown(t, g, h, f);
    v := seq(|d|, i requires 0 <= i < |d| => d[|d| - 1 - i]);
  }

  method ListDown(t: Tree, ghost g: Hash, h: Hash, f: Hash) returns (v: seq<Hash>)
    requires TreeOk(t, g) && h in t && Above(t, g, f, h)
    ensures LeadsDown(t, g, h, f, v)
  {
    v := [];
    var p := h;
    while p != f
      invariant |v| <= t[h].nHeight - t[f].nHeight
      invariant p == Up(t, g, h, t[h].nHeight - |v|)
      invariant forall i :: 0 <= i < |v| ==> v[i] == Up(t, g, h, t[h].nHeight - i)
      decreases t[p].nHeight
    {
      UpStep(t, g, h, t[p].nHeight);
      v := v + [p];
      p := t[p].prev.value;
    }
  }

  lemma UpStep(t: Tree, g: Hash, h: Hash, k: nat)
    requires TreeOk(t, g) && h in t && 0 < k <= t[h].nHeight
    ensures HasParent(t, Up(t, g, h, k)) && t[Up(t, g, h, k)].prev.value == Up(t, g, h, k - 1)
  {
    var p := Up(t, g, h, k);
    assert p != g && HasParent(t, p);
    UpUp(t, g, h, k, k - 1);
  }

  // ---------------------------------------------------------------- forward links

  /** `pnext` leads along the path to `tip`: it is set exactly on the proper ancestors
      of `tip`, each pointing to the next block on the way. */
  ghost predicate LinksTo(t: Tree, g: Hash, pnext: map<Hash, Hash>, tip: Hash)
    requires TreeOk(t, g) && tip in t
  {
    && (forall h :: h in pnext ==> h in t)
    && forall h {:trigger LinkOk(t, g, pnext, tip, h)} :: h in t ==> LinkOk(t, g, pnext, tip, h)
  }

  ghost predicate LinkOk(t: Tree, g: Hash, pnext: map<Hash, Hash>, tip: Hash, h: Hash)
    requires TreeOk(t, g) && tip in t && h in t
  {
    if t[h].nHeight < t[tip].nHeight && Above(t, g, h, tip)
    then h in pnext && pnext[h] == Up(t, g, tip, t[h].nHeight + 1)
    else h !in pnext
  }

  /** Whether or not some are missing, the links that are set lead along the path to `tip`. */
  ghost predicate LinksIn(t: Tree, g: Hash, pnext: map<Hash, Hash>, tip: Hash)
    requires TreeOk(t, g) && tip in t
  {
    forall h {:trigger LinkIn(t, g, pnext, tip, h)} :: LinkIn(t, g, pnext, tip, h)
  }

  ghost predicate LinkIn(t: Tree, g: Hash, pnext: map<Hash, Hash>, tip: Hash, h: Hash)
    requires TreeOk(t, g) && tip in t
  {
    h in pnext ==>
      && h in t && t[h].nHeight < t[tip].nHeight && Above(t, g, h, tip)
      && pnext[h] == Up(t, g, tip, t[h].nHeight + 1)
  }

  /** CBlockIndex::IsInMainChain. */
  predicate IsInMainChain(pnext: map<Hash, Hash>, best: Hash, h: Hash) { h in pnext || h == best }

  lemma InMainChainMeans(t: Tree, g: Hash, pnext: map<Hash, Hash>, best: Hash, h: Hash)
    requires TreeOk(t, g) && best in t && h in t && LinksTo(t, g, pnext, best)
    ensures IsInMainChain(pnext, best, h) <==> Above(t, g, h, best)
  {
    assert LinkOk(t, g, pnext, best, h);
  }

  /** With links missing, what IsInMainChain holds for is still on the best chain. */
  lemma InMainChainIsAbove(t: Tree, g: Hash, pnext: map<Hash, Hash>, best: Hash, h: Hash)
    requires TreeOk(t, g) && best in t && LinksIn(t, g, pnext, best) && IsInMainChain(pnext, best, h)
    ensures Above(t, g, h, best)
  {
    assert LinkIn(t, g, pnext, best, h);
  }

  lemma LinksInBack(t: Tree, g: Hash, pnext: map<Hash, Hash>, h: Hash)
    requires TreeOk(t, g) && h in t && h != g && LinksIn(t, g, pnext, h)
    ensures HasParent(t, h) && LinksIn(t, g, pnext - {t[h].prev.value}, t[h].prev.value)
  {
    ParentAbove(t, g, h);
    var p := t[h].prev.value;
    var cut := pnext - {p};
    forall a ensures LinkIn(t, g, cut, p, a) {
      assert LinkIn(t, g, pnext, h, a);
    }
  }

  lemma LinksInOn(t: Tree, g: Hash, pnext: map<Hash, Hash>, h: Hash)
    requires TreeOk(t, g) && h in t && h != g && HasParent(t, h) && LinksIn(t, g, pnext, t[h].prev.value)
    ensures LinksIn(t, g, pnext[t[h].prev.value := h], h)
  {
    ParentAbove(t, g, h);
    var p := t[h].prev.value;
    var more := pnext[p := h];
    forall a ensures LinkIn(t, g, more, h, a) {
      assert LinkIn(t, g, pnext, p, a);
    }
  }

  /** Links that lead to a block lead on to everything below it. */
  lemma LinksInBelow(t: Tree, g: Hash, pnext: map<Hash, Hash>, tip: Hash, h: Hash)
    requires TreeOk(t, g) && h in t && Above(t, g, tip, h) && LinksIn(t, g, pnext, tip)
    ensures LinksIn(t, g, pnext, h)
  {
    forall a ensures LinkIn(t, g, pnext, h, a) {
      assert LinkIn(t, g, pnext, tip, a);
      if a in pnext {
        AboveTrans(t, g, a, tip, h);
        UpUp(t, g, h, t[tip].nHeight, t[a].nHeight + 1);
      }
    }
  }

  lemma LinksInExtend(t: Tree, g: Hash, n: Hash, node: Node, pnext: map<Hash, Hash>, tip: Hash)
    requires TreeOk(t, g) && n !in t && TreeOk(t[n := node], g) && tip in t && LinksIn(t, g, pnext, tip)
    ensures LinksIn(t[n := node], g, pnext, tip)
  {
    var t' := t[n := node];
    forall a ensures LinkIn(t', g, pnext, tip, a) {
      assert LinkIn(t, g, pnext, tip, a);
      if a in pnext {
        UpExtend(t, g, n, node, tip, t[a].nHeight);
        UpExtend(t, g, n, node, tip, t[a].nHeight + 1);
      }
    }
  }

  /** Dropping the link into `h` moves the links back to its parent. */
  lemma LinksBack(t: Tree, g: Hash, pnext: map<Hash, Hash>, h: Hash)
    requires TreeOk(t, g) && h in t && h != g && LinksTo(t, g, pnext, h)
    ensures HasParent(t, h) && LinksTo(t, g, pnext - {t[h].prev.value}, t[h].prev.value)
  {
    ParentAbove(t, g, h);
    var p := t[h].prev.value;
    forall a | a in t ensures LinkOk(t, g, pnext - {p}, p, a) {
      assert LinkOk(t, g, pnext, h, a);
    }
  }

  /** Setting the link into `h` moves the links on from its parent. */
  lemma LinksOn(t: Tree, g: Hash, pnext: map<Hash, Hash>, h: Hash)
    requires TreeOk(t, g) && h in t && h != g && HasParent(t, h) && LinksTo(t, g, pnext, t[h].prev.value)
    ensures LinksTo(t, g, pnext[t[h].prev.value := h], h)
  {
    ParentAbove(t, g, h);
    var p := t[h].prev.value;
    forall a | a in t ensures LinkOk(t, g, pnext[p := h], h, a) {
      assert LinkOk(t, g, pnext, p, a);
    }
  }

  lemma LinksExtend(t: Tree, g: Hash, n: Hash, node: Node, pnext: map<Hash, Hash>, tip: Hash)
    requires TreeOk(t, g) && n !in t && TreeOk(t[n := node], g) && tip in t && LinksTo(t, g, pnext, tip)
    ensures LinksTo(t[n := node], g, pnext, tip)
  {
    var t' := t[n := node];
    forall a | a in t' ensures LinkOk(t', g, pnext, tip, a) {
      if a in t {
        assert LinkOk(t, g, pnext, tip, a);
        if t[a].nHeight <= t[tip].nHeight {
          UpExtend(t, g, n, node, tip, t[a].nHeight);
          if t[a].nHeight < t[tip].nHeight { UpExtend(t, g, n, node, tip, t[a].nHeight + 1); }
        }
      } else if node.nHeight <= t[tip].nHeight {
        UpExtend(t, g, n, node, tip, node.nHeight);
      }
    }
  }
}
