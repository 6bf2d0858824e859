/** What a whole chain can create (src/main.cpp: ConnectBlock, nMoneySupply). */
module ChainSupply {
  import opened Basics
  import opened Transactions
  import opened Marks
  import opened Supply
  import opened Inputs
  import opened Blocks
  import opened BlockTree
  import opened ChainFold
  import opened Reorg
  import Mint

  /** The reward that the rules give for block `h`. */
  ghost function Reward(s: Store, env: Env, h: Hash): int
    requires h in s.index
  {
    var r := env.rules(h);
    if !s.index[h].block.IsProofOfStake() then r.powSubsidy
    else if r.coinAge.Some? then r.posSubsidy(r.coinAge.value) else 0
  }

  ghost function Rewards(s: Store, env: Env, h: Hash): int
    requires TreeOk(s.index, s.genesis) && h in s.index
    decreases s.index[h].nHeight
  {
    if h == s.genesis then 0
    else
      assert HasParent(s.index, h);
      Rewards(s, env, s.index[h].prev.value) + Reward(s, env, h)
  }

  /** Block `h` was accepted on top of its parent's chain, and is no proof-of-work block with a
      coinstake. */
  ghost predicate Regular(s: Store, env: Env, h: Hash)
    requires TreeOk(s.index, s.genesis) && h in s.index && h != s.genesis
  {
    && JoinsOwn(s, env, h)
    && (s.index[h].block.IsProofOfStake() || Mint.NoStake(s.index[h].block))
  }

  ghost predicate AllRegular(s: Store, env: Env, h: Hash)
    requires TreeOk(s.index, s.genesis) && h in s.index
  {
    forall a {:trigger Regular(s, env, a)} ::
      a in s.index && a != s.genesis && Above(s.index, s.genesis, a, h) ==> Regular(s, env, a)
  }

  /** One more block adds at most its reward. */
  lemma RewardBounds(s: Store, env: Env, h: Hash)
    requires s.Ok() && h in s.index && h != s.genesis && Regular(s, env, h)
    requires StandsAt(s, FoldTo(s.index, s.genesis, s.index[h].prev.value), s.index[h].prev.value)
    ensures StandsAt(s, FoldTo(s.index, s.genesis, h), h)
    ensures WellFormed(FoldTo(s.index, s.genesis, s.index[h].prev.value), s.disk)
    ensures WellFormed(FoldTo(s.index, s.genesis, h), s.disk)
    ensures Total(FoldTo(s.index, s.genesis, h), s.disk)
      <= Total(FoldTo(s.index, s.genesis, s.index[h].prev.value), s.disk) + Reward(s, env, h)
  {
    hide BlockOk, ConnectAll, Placed;
    var node, db := s.index[h], FoldTo(s.index, s.genesis, s.index[h].prev.value);
    FoldToMeans(s.index, s.genesis, s.disk, node.prev.value);
    StandsOn(s, env, db, h);
    assert Accepted(s.index, s.disk, h);
    PlacedPlaces(node.block, node.file, node.blockPos);
    AcceptedMeans(env.rules(h), db, s.disk, env.pool, node.block, Ts(node), 0);
  }

  /** Everything unspent at the end of a chain was created as a reward of one of its blocks. */
  lemma {:induction false} SupplyBound(s: Store, env: Env, h: Hash)
    requires s.Ok() && h in s.index && AllRegular(s, env, h)
    ensures StandsAt(s, FoldTo(s.index, s.genesis, h), h) && WellFormed(FoldTo(s.index, s.genesis, h), s.disk)
    ensures Total(FoldTo(s.index, s.genesis, h), s.disk) <= Rewards(s, env, h)
    decreases s.index[h].nHeight
  {
    hide BlockOk, ConnectAll, Placed;
    if h != s.genesis {
      ParentAbove(s.index, s.genesis, h);
      var p := s.index[h].prev.value;
      forall a | a in s.index && a != s.genesis && Above(s.index, s.genesis, a, p) ensures Regular(s, env, a) {
        AboveTrans(s.index, s.genesis, a, p, h);
      }
      SupplyBound(s, env, p);
      assert Regular(s, env, h);
      RewardBounds(s, env, h);
    }
  }

  // ---------------------------------------------------------------- never negative

  /** Every output is worth an amount of money. */
  ghost predicate Priced(tx: Tx) { forall n :: 0 <= n < |tx.vout| ==> 0 <= tx.vout[n].nValue <= MAX_TX }

  ghost predicate AllPriced(idx: Index, disk: Disk) {
    forall h :: h in idx ==> idx[h].pos in disk && Priced(disk[idx[h].pos])
  }

  lemma {:induction false} UnspentIsMoney(marks: seq<DiskTxPos>, vout: seq<TxOut>)
    requires |marks| == |vout| && forall n :: 0 <= n < |vout| ==> 0 <= vout[n].nValue
    ensures UnspentIn(marks, vout) >= 0
  {
    if vout != [] { UnspentIsMoney(marks[..|vout| - 1], vout[..|vout| - 1]); }
  }

  lemma {:induction false} TotalIsMoney(idx: Index, disk: Disk)
    requires WellFormed(idx, disk) && AllPriced(idx, disk)
    ensures Total(idx, disk) >= 0
    decreases |idx|
  {
    if idx != map[] {
      var h :| h in idx;
      TotalSplit(idx, disk, h);
      UnspentIsMoney(idx[h].vSpent, disk[idx[h].pos].vout);
      TotalIsMoney(idx - {h}, disk);
    }
  }

  lemma {:induction false} PricedConnectAll(idx: Index, disk: Disk, ts: seq<Stored>)
    requires AllPriced(idx, disk) && OnDisk(disk, ts) && forall k :: 0 <= k < |ts| ==> Priced(ts[k].tx)
    ensures AllPriced(ConnectAll(idx, ts), disk)
  {
    if ts != [] { PricedConnectAll(idx, disk, ts[..|ts| - 1]); }
  }

  ghost predicate AllAccepted(s: Store, env: Env, h: Hash)
    requires TreeOk(s.index, s.genesis) && h in s.index
  {
    forall a {:trigger JoinsOwn(s, env, a)} ::
      a in s.index && a != s.genesis && Above(s.index, s.genesis, a, h) ==> JoinsOwn(s, env, a)
  }

  /** Block `h` was accepted on top of its parent's chain. */
  ghost predicate JoinsOwn(s: Store, env: Env, h: Hash)
    requires TreeOk(s.index, s.genesis) && h in s.index && h != s.genesis
  {
    HasParent(s.index, h) && Accepts(s, env, FoldTo(s.index, s.genesis, s.index[h].prev.value), h)
  }

  lemma AcceptedPriced(s: Store, env: Env, h: Hash)
    requires TreeOk(s.index, s.genesis) && h in s.index && h != s.genesis && JoinsOwn(s, env, h)
    ensures forall k :: 0 <= k < |Ts(s.index[h])| ==> Priced(Ts(s.index[h])[k].tx)
  {
    hide TxsOk, SigOps, RewardOk;
    var b := s.index[h].block;
    forall k | 0 <= k < |b.vtx| ensures Priced(b.vtx[k]) { assert CheckTransaction(b.vtx[k]); }
  }

  /** No output in the index is worth less than nothing or more than all the money, so the supply of a
      chain is never negative. */
  lemma {:induction false} SupplyIsMoney(s: Store, env: Env, h: Hash)
    requires s.Ok() && h in s.index && AllAccepted(s, env, h)
    ensures StandsAt(s, FoldTo(s.index, s.genesis, h), h) && AllPriced(FoldTo(s.index, s.genesis, h), s.disk)
    ensures WellFormed(FoldTo(s.index, s.genesis, h), s.disk) && Total(FoldTo(s.index, s.genesis, h), s.disk) >= 0
    decreases s.index[h].nHeight
  {
    hide BlockOk, ConnectAll, Placed;
    if h != s.genesis {
      ParentAbove(s.index, s.genesis, h);
      var p := s.index[h].prev.value;
      forall a | a in s.index && a != s.genesis && Above(s.index, s.genesis, a, p) ensures JoinsOwn(s, env, a) {
        AboveTrans(s.index, s.genesis, a, p, h);
      }
      SupplyIsMoney(s, env, p);
      assert JoinsOwn(s, env, h);
      StandsOn(s, env, FoldTo(s.index, s.genesis, p), h);
      AcceptedPriced(s, env, h);
      assert Accepted(s.index, s.disk, h);
      PricedConnectAll(FoldTo(s.index, s.genesis, p), s.disk, Ts(s.index[h]));
    }
    FoldToMeans(s.index, s.genesis, s.disk, h);
    TotalIsMoney(FoldTo(s.index, s.genesis, h), s.disk);
  }
}
