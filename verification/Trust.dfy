/** Chain trust in the block tree (src/main.cpp: AddToBlockIndex, AcceptBlock, GetBlockTrust). */
module Trust {
  import opened Basics
  import opened Transactions
  import opened Blocks
  import opened BlockTree
  import opened Reorg
  import Retarget

  /** What a block contributes to targets and trust. */
  function Summary(b: Block): Retarget.Blk { Retarget.Blk(b.nTime, b.nBits, b.IsProofOfStake()) }

  /** The chain from the genesis block to `h`. */
  function ChainTo(t: Tree, g: Hash, h: Hash): seq<Retarget.Blk>
    requires TreeOk(t, g) && h in t
    decreases t[h].nHeight
  {
    if h == g then [Summary(t[h].block)]
    else
      assert HasParent(t, h);
      ChainTo(t, g, t[h].prev.value) + [Summary(t[h].block)]
  }

  /** The chain that block `h` was put on. */
  function ChainBelow(t: Tree, g: Hash, h: Hash): seq<Retarget.Blk>
    requires TreeOk(t, g) && h in t
  {
    if h == g then []
    else
      assert HasParent(t, h);
      ChainTo(t, g, t[h].prev.value)
  }

  /** nChainTrust of `h` is that of its parent and its own, and its target is the required one. */
  ghost predicate Weighs(t: Tree, g: Hash, h: Hash)
    requires TreeOk(t, g) && h in t
  {
    && t[h].nChainTrust
      == (if h == g then 0 else assert HasParent(t, h); t[t[h].prev.value].nChainTrust)
         + Retarget.BlockTrust(t[h].block.nBits)
    && t[h].block.nBits == Retarget.NextRequired(ChainBelow(t, g, h), t[h].block.IsProofOfStake())
  }

  ghost predicate Weighed(t: Tree, g: Hash) {
    TreeOk(t, g) && forall h {:trigger Weighs(t, g, h)} :: h in t ==> Weighs(t, g, h)
  }

  lemma {:induction false} ChainToAt(t: Tree, g: Hash, h: Hash, k: nat)
    requires TreeOk(t, g) && h in t && k <= t[h].nHeight
    ensures |ChainTo(t, g, h)| == t[h].nHeight + 1 && ChainTo(t, g, h)[k] == Summary(t[Up(t, g, h, k)].block)
    ensures k > 0 ==> ChainTo(t, g, h)[..k] == ChainBelow(t, g, Up(t, g, h, k))
    decreases t[h].nHeight
  {
    if h != g {
      assert HasParent(t, h);
      var init := ChainTo(t, g, t[h].prev.value);
      ChainToAt(t, g, t[h].prev.value, if k < t[h].nHeight then k else 0);
      assert k < t[h].nHeight ==> ChainTo(t, g, h)[..k] == init[..k];
      assert ChainTo(t, g, h)[..t[h].nHeight] == init;
    }
  }

  /** Every chain of the tree carries the targets required along it. */
  lemma ChainAccepted(t: Tree, g: Hash, h: Hash)
    requires Weighed(t, g) && h in t
    ensures Retarget.Accepted(ChainTo(t, g, h))
  {
    hide Retarget.NextRequired;
    var chain := ChainTo(t, g, h);
    ChainToAt(t, g, h, 0);
    forall k | 0 <= k < |chain| ensures chain[k].nBits == Retarget.NextRequired(chain[..k], chain[k].proofOfStake) {
      ChainToAt(t, g, h, k);
      var a := Up(t, g, h, k);
      assert Weighs(t, g, a);
      if k == 0 { GenesisAbove(t, g, h); }
      assert chain[..k] == ChainBelow(t, g, a);
    }
  }

  /** nChainTrust is the sum of the block trusts along the chain. */
  lemma {:induction false} TrustIsSum(t: Tree, g: Hash, h: Hash)
    requires Weighed(t, g) && h in t
    ensures t[h].nChainTrust == Retarget.ChainTrust(ChainTo(t, g, h))
    decreases t[h].nHeight
  {
    hide Retarget.NextRequired, Retarget.BlockTrust;
    var chain := ChainTo(t, g, h);
    assert Weighs(t, g, h);
    if h != g {
      assert HasParent(t, h);
      TrustIsSum(t, g, t[h].prev.value);
      assert chain[..|chain| - 1] == ChainTo(t, g, t[h].prev.value);
    } else {
      assert chain[..0] == [];
    }
  }

  /** Every block further on has at least 2^20 more trust. */
  lemma {:induction false} TrustRisesBelow(t: Tree, g: Hash, a: Hash, h: Hash)
    requires Weighed(t, g) && h in t && Above(t, g, a, h)
    ensures t[h].nChainTrust >= t[a].nChainTrust + 0x100000 * (t[h].nHeight - t[a].nHeight)
    decreases t[h].nHeight
  {
    hide Retarget.NextRequired, Retarget.BlockTrust, Retarget.Accepted;
    if a != h {
      ParentAbove(t, g, h);
      TrustRisesBelow(t, g, a, t[h].prev.value);
      assert Weighs(t, g, h);
      TrustOfBlock(t, g, h);
    }
  }

  lemma TrustOfBlock(t: Tree, g: Hash, h: Hash)
    requires Weighed(t, g) && h in t
    ensures Retarget.BlockTrust(t[h].block.nBits) >= 0x100000
  {
    hide Retarget.NextRequired, Retarget.BlockTrust;
    var n := t[h].nHeight;
    ChainAccepted(t, g, h);
    ChainToAt(t, g, h, n);
    Retarget.AcceptedTarget(ChainTo(t, g, h), n);
    Retarget.TrustAtLeast(t[h].block.nBits);
  }

  /** The block that SetBestChain reorganizes to is the first on the way to `h` with more trust than
      the best block; the postponed ones are those after it. */
  lemma IntermediateIsFirst(t: Tree, g: Hash, best: Hash, h: Hash, a: Hash)
    requires Weighed(t, g) && best in t && h in t && t[h].nChainTrust > t[best].nChainTrust && Above(t, g, a, h)
    ensures t[a].nChainTrust > t[best].nChainTrust <==> t[a].nHeight >= t[Intermediate(t, g, best, h)].nHeight
  {
    hide Weighs;
    var p := Intermediate(t, g, best, h);
    if t[a].nHeight >= t[p].nHeight {
      UpUp(t, g, h, t[a].nHeight, t[p].nHeight);
      TrustRisesBelow(t, g, p, a);
      if p != h {
        var c := Up(t, g, h, t[p].nHeight + 1);
        UpUp(t, g, h, t[p].nHeight + 1, t[p].nHeight);
        ParentAbove(t, g, c);
        assert Above(t, g, c, h) && Postponed(t, best, c) && t[c].prev == Some(p);
      }
    } else {
      ParentAbove(t, g, p);
      var q := t[p].prev.value;
      UpUp(t, g, h, t[p].nHeight, t[a].nHeight);
      UpUp(t, g, p, t[q].nHeight, t[a].nHeight);
      TrustRisesBelow(t, g, a, q);
    }
  }

  lemma {:induction false} ChainExtend(t: Tree, g: Hash, n: Hash, node: Node, h: Hash)
    requires TreeOk(t, g) && n !in t && TreeOk(t[n := node], g) && h in t
    ensures ChainTo(t[n := node], g, h) == ChainTo(t, g, h)
    decreases t[h].nHeight
  {
    if h != g {
      assert HasParent(t, h);
      ChainExtend(t, g, n, node, t[h].prev.value);
    }
  }

  /** A leaf with the required target and its share of trust keeps the tree weighed. */
  lemma WeighedExtend(t: Tree, g: Hash, n: Hash, node: Node)
    requires Weighed(t, g) && n !in t && TreeOk(t[n := node], g) && node.prev.Some? && node.prev.value in t
    requires node.nChainTrust == t[node.prev.value].nChainTrust + Retarget.BlockTrust(node.block.nBits)
    requires node.block.nBits == Retarget.NextRequired(ChainTo(t, g, node.prev.value), node.block.IsProofOfStake())
    ensures Weighed(t[n := node], g)
  {
    hide Retarget.NextRequired, Retarget.BlockTrust;
    var t' := t[n := node];
    forall h | h in t' ensures Weighs(t', g, h) {
      if h == n {
        ChainExtend(t, g, n, node, node.prev.value);
      } else {
        assert Weighs(t, g, h);
        if h != g {
          assert HasParent(t, h);
          ChainExtend(t, g, n, node, t[h].prev.value);
        }
      }
    }
  }

  /** No indexed block has more trust. */
  ghost predicate Heaviest(t: Tree, best: Hash) {
    best in t && forall h :: h in t ==> t[h].nChainTrust <= t[best].nChainTrust
  }
}
