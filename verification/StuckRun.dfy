/** A run in which the node stops following its best chain: a first block cannot be committed, a
    second one on top of it brings the reorganisation to the first, and is then found unreadable
    (src/main.cpp: SetBestChain). */
module StuckRun {
  import opened Basics
  import opened Transactions
  import opened Marks
  import opened Supply
  import opened Inputs
  import opened Blocks
  import opened BlockTree
  import opened ChainFold
  import opened Reorg
  import opened Chain
  import opened Trust
  import Retarget

  const BITS: nat := Retarget.NextRequired([], false)

  const GENESIS := Block(1, 0, 0, BITS, [])

  function Coinbase(id: Hash, height: nat): Tx { Tx(id, 0, height, [OutPoint(0, NULL_N)], [TxOut(0, [1])], 100, 0) }

  const FIRST := Block(2, 1, 0, BITS, [Coinbase(11, 1)])
  const SECOND := Block(3, 2, 0, BITS, [Coinbase(12, 2)])

  const RULES := BlockRules(
    Rules((p, t, i) => true, p => false, t => 0, t => 0, (t, m) => 0), true, 0, None, a => 0)

  const NO_COMMIT := Env(h => RULES, {}, {2}, map[])
  const NO_READ := Env(h => RULES, {3}, {}, map[])

  /** A block with just a coinbase of a new id is accepted. */
  lemma CoinbaseBlockOk(db: Index, disk: Disk, pool: map<Hash, Tx>, id: Hash, height: nat, b: Block, ts: seq<Stored>)
    requires b.vtx == [Coinbase(id, height)] && b.nTime == 0 && id !in db
    requires |ts| == 1 && ts[0].tx == b.vtx[0]
    ensures BlockOk(RULES, db, disk, pool, b, ts)
  {
    CoinbaseChecked(id, height);
    assert ts[..0] == [] && b.vtx[..0] == [] && ts[|ts| - 1] == ts[0] && ts[..|ts| - 1] == [];
    assert TxOk(RULES.tx, db, At(ConnectAll(db, ts[..0]), disk, pool), ts[0].tx);
    assert TxsOk(RULES.tx, db, disk, pool, ts);
  }

  lemma CoinbaseChecked(id: Hash, height: nat)
    ensures CheckTransaction(Coinbase(id, height)) && ValueOut(Coinbase(id, height).vout) == 0
  {
    var cb := Coinbase(id, height);
    assert cb.vout[..0] == [] && cb.vout[..1] == cb.vout && Distinct(cb.vin);
    assert ValueOut(cb.vout[..1]) == 0;
  }

  const ROOT := Root(1, GENESIS, 0, 0)
  const AFTER_FIRST := Grown(ROOT, 2, NewNode(ROOT.index, FIRST, 5, 0))
  const AFTER_SECOND := Grown(AFTER_FIRST, 3, NewNode(AFTER_FIRST.index, SECOND, 5, 1000))

  /** So early in the chain the limit is required, whose trust is positive. */
  lemma LimitRequired(chain: seq<Retarget.Blk>)
    requires 0 < |chain| <= 2 && forall k :: 0 <= k < |chain| ==> !chain[k].proofOfStake
    ensures Retarget.NextRequired(chain, false) == BITS && Retarget.BlockTrust(BITS) > 0
  {
    hide Retarget.BlockTrust;
    assert Retarget.NextTarget(chain, false) == Retarget.LIMIT == Retarget.NextTarget([], false);
    Retarget.RequiredInRange([], false);
    Retarget.TrustAtLeast(BITS);
  }

  lemma BitsRequired()
    ensures BITS == Retarget.NextRequired([], false)
  {
    hide Retarget.NextRequired;
  }

  lemma FirstFits()
    ensures TreeOk(ROOT.index, 1) && Storable(ROOT.disk, FIRST, 5, 0) && Indexable(ROOT, NO_COMMIT, FIRST)
  {
    hide Retarget.NextRequired, Retarget.BlockTrust;
    var ts := Placed(FIRST, 5, 0);
    assert ts[..0] == [];
    CoinbaseChecked(11, 1);
    CoinbaseBlockOk(map[], map[], map[], 11, 1, FIRST, ts);
    LimitRequired([Summary(GENESIS)]);
    assert ChainTo(ROOT.index, 1, 1) == [Summary(GENESIS)];
  }

  lemma SecondFits()
    ensures Storable(AFTER_FIRST.disk, SECOND, 5, 1000)
  {
    hide Retarget.NextRequired, Retarget.BlockTrust;
    var ts, us := Placed(FIRST, 5, 0), Placed(SECOND, 5, 1000);
    assert ts[..0] == [] && us[..0] == [];
    assert ts[0].pos.nTxPos < 1000 < us[0].pos.nTxPos;
    assert Sized(SECOND);
    assert AFTER_FIRST.disk == Written(ts);
    assert Written(ts) == map[ts[0].pos := Coinbase(11, 1)] && Written(us) == map[us[0].pos := Coinbase(12, 2)];
    assert DiskModel(Written(ts) + Written(us));
  }

  lemma SecondChecked()
    ensures CheckBlock(RULES, SECOND)
  {
    hide Retarget.NextRequired, CheckBlock, TxsOk;
    CoinbaseBlockOk(map[], map[], map[], 12, 2, SECOND, Placed(SECOND, 5, 1000));
  }

  lemma SecondIndexable()
    ensures Indexable(AFTER_FIRST, NO_READ, SECOND)
  {
    hide Retarget.NextRequired, Retarget.BlockTrust, CheckBlock, Written, Placed;
    SecondChecked();
    var p := AFTER_FIRST.index[2];
    assert p.block == FIRST && SECOND.hashPrev == 2 && SECOND.hash == 3 && NO_READ.rules(3) == RULES;
    TreesOk();
    LimitRequired([Summary(GENESIS), Summary(FIRST)]);
    assert ChainTo(AFTER_FIRST.index, 1, 1) == [Summary(GENESIS)];
    assert ChainTo(AFTER_FIRST.index, 1, 2) == [Summary(GENESIS)] + [Summary(FIRST)];
    assert [Summary(GENESIS)] + [Summary(FIRST)] == [Summary(GENESIS), Summary(FIRST)];
    assert SECOND.vtx[0].coinbaseHeight == p.nHeight + 1;
    assert Required(AFTER_FIRST, 2, SECOND);
    assert SECOND.hash !in AFTER_FIRST.index;
  }

  lemma TreesOk()
    ensures TreeOk(AFTER_FIRST.index, 1) && TreeOk(AFTER_SECOND.index, 1)
  {
    hide Retarget.NextRequired, Retarget.BlockTrust, Written, Placed;
    TreeExtend(ROOT.index, 1, 2, NewNode(ROOT.index, FIRST, 5, 0));
    TreeExtend(AFTER_FIRST.index, 1, 3, NewNode(AFTER_FIRST.index, SECOND, 5, 1000));
  }

  lemma TrustsAre()
    ensures var t := AFTER_SECOND.index;
      t[1].nChainTrust < t[2].nChainTrust < t[3].nChainTrust
  {
    hide Retarget.NextRequired, Retarget.BlockTrust, Written, Placed;
    LimitRequired([Summary(GENESIS)]);
  }

  /** SetBestChain to the second block goes by way of the first, whose parent has no more trust
      than the best block. */
  lemma ByWayOfFirst()
    ensures TreeOk(AFTER_SECOND.index, 1) && Intermediate(AFTER_SECOND.index, 1, 1, 3) == 2
  {
    hide Retarget.NextRequired, Retarget.BlockTrust, Written, Placed;
    TreesOk();
    TrustsAre();
    var t := AFTER_SECOND.index;
    assert Postponed(t, 1, 3) && !Postponed(t, 1, 2);
    assert Intermediate(t, 1, 1, 2) == 2;
  }

  lemma FirstJoins()
    ensures JoinsFold(AFTER_SECOND, NO_READ, 2)
  {
    TreesOk();
    assert FoldTo(AFTER_SECOND.index, 1, 1) == map[];
    CoinbaseBlockOk(map[], AFTER_SECOND.disk, map[], 11, 1, FIRST, Ts(AFTER_SECOND.index[2]));
  }

  /** The reorganisation to the first block succeeds, the connect of the second fails. */
  lemma SwitchesButStops()
    ensures TreeOk(AFTER_SECOND.index, 1)
    ensures AdoptOk(AFTER_SECOND, NO_READ, 1, 3) && !FinishOk(AFTER_SECOND, NO_READ, 1, 3)
  {
    ByWayOfFirst();
    FirstJoins();
    var s, t := AFTER_SECOND, AFTER_SECOND.index;
    hide BlockOk, ConnectAll, Placed;
    forall b ensures !Leaves(s, 1, 2, b) { GenesisAbove(t, 1, 2); }
    forall b | Leaves(s, 2, 1, b) ensures JoinsFold(s, NO_READ, b) {
      assert t[b].nHeight <= 1;
      GenesisAbove(t, 1, 1);
      assert b != 1 && b != 3;
    }
    assert Between(s, 2, 3, 3) && !Climbs(s, NO_READ, 3);
  }

  lemma FirstRefused()
    ensures TreeOk(AFTER_FIRST.index, 1) && !AdoptOk(AFTER_FIRST, NO_COMMIT, 1, 2)
  {
    TreeExtend(ROOT.index, 1, 2, NewNode(ROOT.index, FIRST, 5, 0));
  }

  /** From the start, two blocks are enough: both are indexed, the second one is the best block, and
      the index is not that of its chain. */
  method Stuck() returns (chain: ChainState)
    ensures fresh(chain) && chain.Valid() && !chain.Settled()
    ensures chain.store == AFTER_SECOND && chain.best == SECOND.hash
    ensures chain.txdb != FoldTo(chain.store.index, chain.store.genesis, chain.best)
  {
    hide Retarget.NextRequired, Retarget.BlockTrust, Required, Weighed, CheckBlock;
    hide BlockOk, ConnectAll, Placed, Written, Adopts, AdoptOk, FinishOk, Moved;
    BitsRequired();
    chain := new ChainState(1, GENESIS, 0, 0);
    FirstFits();
    FirstRefused();
    var ok := chain.AcceptBlock(FIRST, 5, 0, NO_COMMIT);
    SecondFits();
    SecondIndexable();
    TrustsAre();
    SwitchesButStops();
    ok := chain.AcceptBlock(SECOND, 5, 1000, NO_READ);
    StuckIndexDiffers(chain.store, chain.txdb, chain.dbBest, chain.best);
  }
}
