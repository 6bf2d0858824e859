/** A block that CreateNewBlock assembles is one that ConnectBlock accepts (src/miner.cpp:
    CreateNewBlock; src/main.cpp: CBlock::ConnectBlock). The miner connects transactions that are not
    stored yet, on top of a test pool; ConnectBlock finds them at their places on disk. */
module MinedBlock {
  import opened Basics
  import opened Transactions
  import opened Marks
  import opened Supply
  import opened Inputs
  import opened Blocks
  import opened Miner
  import Mint

  // ---------------------------------------------------------------- the same inputs

  /** The same previous transactions with the same outputs spent; the place may differ unless maturity
      depends on it. */
  ghost predicate SamePrev(a: PrevTx, b: PrevTx) {
    && a.tx == b.tx && |a.txindex.vSpent| == |b.txindex.vSpent|
    && (forall n :: 0 <= n < |a.txindex.vSpent| ==>
      (a.txindex.vSpent[n] == NullPos <==> b.txindex.vSpent[n] == NullPos))
    && (a.tx.IsCoinBase() || a.tx.IsCoinStake() ==> a.txindex.pos == b.txindex.pos)
  }

  ghost predicate SameInputs(m: PrevMap, m': PrevMap) {
    m.Keys == m'.Keys && forall h {:trigger m[h]} :: h in m ==> SamePrev(m[h], m'[h])
  }

  /** Signature operations in scripts are counted from the transactions, wherever they are stored. */
  ghost predicate CountsByTx(rules: Rules) {
    forall tx, m, m' {:trigger rules.p2shSigOps(tx, m), rules.p2shSigOps(tx, m')} ::
      SameInputs(m, m') ==> rules.p2shSigOps(tx, m) == rules.p2shSigOps(tx, m')
  }

  lemma {:induction false} SameSum(m: PrevMap, m': PrevMap, vin: seq<OutPoint>)
    requires SameInputs(m, m')
    ensures InputSum(m, vin) == InputSum(m', vin)
  {
    if vin != [] {
      SameSum(m, m', vin[..|vin| - 1]);
      var h := vin[|vin| - 1].hash;
      assert h in m ==> m[h].tx == m'[h].tx;
    }
  }

  lemma SameAreOk(rules: Rules, m: PrevMap, m': PrevMap, tx: Tx)
    requires SameInputs(m, m') && InputsOk(rules, m, tx) && !tx.IsCoinBase()
    ensures InputsOk(rules, m', tx)
  {
    SameSum(m, m', tx.vin);
    forall i | 0 <= i < |tx.vin| ensures InputOk(rules, m', tx, i) && Signed(rules, m', tx, i) {
      assert InputOk(rules, m, tx, i) && Signed(rules, m, tx, i);
      SameSum(m, m', tx.vin[..i + 1]);
      assert SamePrev(m[tx.vin[i].hash], m'[tx.vin[i].hash]);
    }
    forall o | o in tx.Spends() ensures Unspent(Indices(m'), o) {
      assert Unspent(Indices(m), o) && SamePrev(m[o.hash], m'[o.hash]);
    }
  }

  // ---------------------------------------------------------------- the same views

  /** Entry `h` of the miner's view and of the block's: transactions of the block are in the pool for
      the one and on disk for the other. */
  ghost predicate Twin(w: World, disk: Disk, v: Index, u: Index, h: Hash) {
    h in v ==>
      && h in u && |v[h].vSpent| == |u[h].vSpent|
      && (forall n :: 0 <= n < |v[h].vSpent| ==> (v[h].vSpent[n] == NullPos <==> u[h].vSpent[n] == NullPos))
      && if v[h].pos == MEMPOOL_POS
         then w.Eligible(h) && u[h].pos != MEMPOOL_POS && u[h].pos in disk && disk[u[h].pos] == w.pool[h]
         else v[h].pos in w.disk && u[h].pos == v[h].pos
  }

  ghost predicate Twins(w: World, disk: Disk, v: Index, u: Index) {
    forall h {:trigger Twin(w, disk, v, u, h)} :: Twin(w, disk, v, u, h)
  }

  ghost predicate Onto(w: World, disk: Disk) {
    GoodDisk(w.disk) && GoodDisk(disk) && forall p :: p in w.disk ==> p in disk && disk[p] == w.disk[p]
  }

  lemma LookupTwin(w: World, disk: Disk, pool: map<Hash, Tx>, v: Index, u: Index, h: Hash)
    requires Twins(w, disk, v, u) && Onto(w, disk) && At(v, w.disk, w.pool).Lookup(h).Some?
    ensures At(u, disk, pool).Lookup(h).Some?
    ensures SamePrev(At(v, w.disk, w.pool).Lookup(h).value, At(u, disk, pool).Lookup(h).value)
  {
    assert At(v, w.disk, w.pool).View() == v && At(u, disk, pool).View() == u;
    assert Twin(w, disk, v, u, h);
  }

  lemma InputsTwin(w: World, disk: Disk, pool: map<Hash, Tx>, v: Index, u: Index, vin: seq<OutPoint>)
    requires Twins(w, disk, v, u) && Onto(w, disk) && At(v, w.disk, w.pool).AllFetchable(vin)
    ensures At(u, disk, pool).AllFetchable(vin)
    ensures SameInputs(InputsAt(At(v, w.disk, w.pool), vin), InputsAt(At(u, disk, pool), vin))
  {
    var a, b := At(v, w.disk, w.pool), At(u, disk, pool);
    forall i | 0 <= i < |vin| ensures b.Fetchable(vin[i]) {
      assert a.Fetchable(vin[i]);
      LookupTwin(w, disk, pool, v, u, vin[i].hash);
    }
    forall h | h in Hashes(vin) ensures a.Lookup(h).Some? && b.Lookup(h).Some?
      && SamePrev(a.Lookup(h).value, b.Lookup(h).value)
    {
      var i :| 0 <= i < |vin| && vin[i].hash == h;
      assert a.Fetchable(vin[i]);
      LookupTwin(w, disk, pool, v, u, h);
    }
  }

  /** Connecting the same transaction, not stored and stored, keeps the views alike. */
  lemma ConnectTwins(w: World, disk: Disk, v: Index, u: Index, tx: Tx, pos: DiskTxPos)
    requires Twins(w, disk, v, u) && Onto(w, disk) && w.Eligible(tx.hash) && w.pool[tx.hash] == tx
    requires pos in disk && disk[pos] == tx
    ensures Twins(w, disk, Connect(v, Stored(tx, MEMPOOL_POS)), Connect(u, Stored(tx, pos)))
  {
    var v', u' := Connect(v, Stored(tx, MEMPOOL_POS)), Connect(u, Stored(tx, pos));
    forall h ensures Twin(w, disk, v', u', h) {
      assert Twin(w, disk, v, u, h);
    }
  }

  // ---------------------------------------------------------------- the block

  /** `us` is the coinbase `us[0]` and the transactions `ts` at their places on disk. */
  ghost predicate Stores(w: World, disk: Disk, ts: seq<Stored>, us: seq<Stored>) {
    && Onto(w, disk) && OnDisk(disk, us) && |us| == |ts| + 1
    && us[0].tx.IsCoinBase() && us[0].tx.hash !in w.txdb
    && forall k :: 0 <= k < |ts| ==> us[k + 1].tx == ts[k].tx
  }

  lemma Start(w: World, disk: Disk, ts: seq<Stored>, us: seq<Stored>)
    requires Sound(w) && Stores(w, disk, ts, us)
    ensures Twins(w, disk, w.txdb, ConnectAll(w.txdb, us[..1]))
    ensures ConnectAll(w.txdb, ts[..0]) == w.txdb
  {
    assert us[..0] == [] && ts[..0] == [] && us[0].tx.Spends() == [];
    ConnectStep(w.txdb, us, 0);
    MarkAllNone(w.txdb, us[0].pos);
    var u := ConnectAll(w.txdb, us[..1]);
    assert u == w.txdb[us[0].tx.hash := TxIndex(us[0].pos, Nulls(|us[0].tx.vout|))];
    forall h ensures Twin(w, disk, w.txdb, u, h) {
      if h in w.txdb { assert u[h] == w.txdb[h] && w.txdb[h].pos in w.disk; }
    }
  }

  lemma {:induction false} ViewsAreTwins(w: World, rules: Rules, disk: Disk, ts: seq<Stored>, us: seq<Stored>, k: nat)
    requires Sound(w) && Mined(w, rules, ts) && Stores(w, disk, ts, us) && k <= |ts|
    ensures Twins(w, disk, ConnectAll(w.txdb, ts[..k]), ConnectAll(w.txdb, us[..k + 1]))
  {
    hide Twins, Mined, ConnectAll, Connect, Fits, Sound;
    if k == 0 {
      Start(w, disk, ts, us);
      assert ts[..0] == [];
    } else {
      ViewsAreTwins(w, rules, disk, ts, us, k - 1);
      MinedAt(w, rules, ts, k - 1);
      ConnectStep(w.txdb, ts, k - 1);
      ConnectStep(w.txdb, us, k);
      assert ts[k - 1] == Stored(ts[k - 1].tx, MEMPOOL_POS) && us[k] == Stored(us[k].tx, us[k].pos);
      ConnectTwins(w, disk, ConnectAll(w.txdb, ts[..k - 1]), ConnectAll(w.txdb, us[..k]), ts[k - 1].tx, us[k].pos);
    }
  }

  /** ConnectBlock accepts the next transaction, counting the same signature operations and value. */
  lemma NextAccepted(w: World, rules: Rules, disk: Disk, pool: map<Hash, Tx>, ts: seq<Stored>, us: seq<Stored>, k: nat)
    requires Sound(w) && Mined(w, rules, ts) && Stores(w, disk, ts, us) && k < |ts| && CountsByTx(rules)
    ensures var v, u := At(ConnectAll(w.txdb, ts[..k]), w.disk, w.pool),
      At(ConnectAll(w.txdb, us[..k + 1]), disk, pool);
      && TxOk(rules, w.txdb, u, ts[k].tx) && !ts[k].tx.IsCoinBase()
      && TxSigOps(rules, u, ts[k].tx) == TxSigOps(rules, v, ts[k].tx)
      && InputSum(InputsAt(u, ts[k].tx.vin), ts[k].tx.vin) == InSum(w, ts[k].tx.vin)
  {
    hide Twins, Mined, InputsOk;
    var tx := ts[k].tx;
    var v, u := ConnectAll(w.txdb, ts[..k]), ConnectAll(w.txdb, us[..k + 1]);
    ViewsAreTwins(w, rules, disk, ts, us, k);
    MinedAt(w, rules, ts, k);
    InputsTwin(w, disk, pool, v, u, tx.vin);
    var m, m' := InputsAt(At(v, w.disk, w.pool), tx.vin), InputsAt(At(u, disk, pool), tx.vin);
    SameAreOk(rules, m, m', tx);
    SameSum(m, m', tx.vin);
    MinedSum(w, rules, ts[..k], tx.vin, tx.vin);
    assert w.OkAt(tx.hash);
  }

  lemma CoinbaseAccepted(w: World, rules: Rules, disk: Disk, pool: map<Hash, Tx>, ts: seq<Stored>, us: seq<Stored>)
    requires Stores(w, disk, ts, us)
    ensures TxsOk(rules, w.txdb, disk, pool, us[..1])
    ensures SigOps(rules, w.txdb, disk, pool, us[..1]) == rules.sigOps(us[0].tx) && Fees(w.txdb, disk, us[..1]) == 0
  {
    assert us[..1][..0] == [];
  }

  ghost predicate SumsUp(w: World, rules: Rules, disk: Disk, pool: map<Hash, Tx>, ts: seq<Stored>, us: seq<Stored>,
    k: nat)
    requires k <= |ts| && |us| == |ts| + 1
  {
    && TxsOk(rules, w.txdb, disk, pool, us[..k + 1])
    && SigOps(rules, w.txdb, disk, pool, us[..k + 1])
      == rules.sigOps(us[0].tx) + SigOps(rules, w.txdb, w.disk, w.pool, ts[..k])
    && Fees(w.txdb, disk, us[..k + 1]) == FeesOf(w, ts[..k])
  }

  lemma SumsStep(w: World, rules: Rules, disk: Disk, pool: map<Hash, Tx>, ts: seq<Stored>, us: seq<Stored>, k: nat)
    requires Sound(w) && Mined(w, rules, ts) && Stores(w, disk, ts, us) && k < |ts| && CountsByTx(rules)
    requires DistinctIds(us) && SumsUp(w, rules, disk, pool, ts, us, k)
    ensures SumsUp(w, rules, disk, pool, ts, us, k + 1)
  {
    hide Mined, TxOk, TxsOk, SigOps, TxSigOps, Fees, FeesOf, CountsByTx, ConnectAll, WellFormed, Surplus;
    NextAccepted(w, rules, disk, pool, ts, us, k);
    TxsOkStep(rules, w.txdb, disk, pool, us, k + 1);
    SigOpsStep(rules, w.txdb, disk, pool, us, k + 1);
    SigOpsStep(rules, w.txdb, w.disk, w.pool, ts, k);
    Mint.FeesStep(w.txdb, disk, us, k + 1);
    FeesOfStep(w, ts, k);
    PrefixWellFormed(rules, w.txdb, disk, pool, us, k + 1) by { OntoWellFormed(w, disk); }
    NextSurplus(w, rules, disk, pool, ts, us, k);
  }

  lemma OntoWellFormed(w: World, disk: Disk)
    requires WellFormed(w.txdb, w.disk) && Onto(w, disk)
    ensures WellFormed(w.txdb, disk)
  {}

  lemma FeesOfStep(w: World, ts: seq<Stored>, k: nat)
    requires k < |ts|
    ensures FeesOf(w, ts[..k + 1]) == FeesOf(w, ts[..k]) + InSum(w, ts[k].tx.vin) - ValueOut(ts[k].tx.vout)
  {
    assert ts[..k + 1][..k] == ts[..k];
  }

  lemma NextSurplus(w: World, rules: Rules, disk: Disk, pool: map<Hash, Tx>, ts: seq<Stored>, us: seq<Stored>, k: nat)
    requires Sound(w) && Mined(w, rules, ts) && Stores(w, disk, ts, us) && k < |ts| && CountsByTx(rules)
    requires WellFormed(ConnectAll(w.txdb, us[..k + 1]), disk)
    ensures Mint.Ordinary(us[k + 1].tx)
    ensures Surplus(ConnectAll(w.txdb, us[..k + 1]), disk, us[k + 1].tx)
      == InSum(w, ts[k].tx.vin) - ValueOut(ts[k].tx.vout)
  {
    hide Mined, InputsOk, CountsByTx;
    NextAccepted(w, rules, disk, pool, ts, us, k);
    MinedAt(w, rules, ts, k);
    InputSumIs(ConnectAll(w.txdb, us[..k + 1]), disk, pool, ts[k].tx.vin, ts[k].tx.vin);
  }

  lemma NothingYet(w: World, rules: Rules)
    ensures SigOps(rules, w.txdb, w.disk, w.pool, []) == 0 && FeesOf(w, []) == 0
  {}

  lemma {:induction false} AllSumUp(w: World, rules: Rules, disk: Disk, pool: map<Hash, Tx>, ts: seq<Stored>,
    us: seq<Stored>, k: nat)
    requires Sound(w) && Mined(w, rules, ts) && Stores(w, disk, ts, us) && k <= |ts| && CountsByTx(rules)
    requires DistinctIds(us)
    ensures SumsUp(w, rules, disk, pool, ts, us, k)
  {
    hide Mined, TxsOk, SigOps, Fees, CountsByTx, ConnectAll, WellFormed, Onto;
    if k == 0 {
      CoinbaseAccepted(w, rules, disk, pool, ts, us);
      assert ts[..0] == [];
      NothingYet(w, rules);
    } else {
      AllSumUp(w, rules, disk, pool, ts, us, k - 1);
      SumsStep(w, rules, disk, pool, ts, us, k - 1);
    }
  }

  /** An assembled proof-of-work block that passes CheckBlock, and whose coinbase claims no more than the
      subsidy and the fees counted by the miner, is accepted by ConnectBlock. */
  lemma AssembledConnects(w: World, l: Limits, ts: seq<Stored>, t: Totals, r: BlockRules, disk: Disk,
    pool: map<Hash, Tx>, b: Block, us: seq<Stored>)
    requires Sound(w) && Assembled(w, l, ts, t) && r.tx == l.rules && CountsByTx(r.tx)
    requires Stores(w, disk, ts, us) && Places(b, us) && CheckBlock(r, b) && !b.IsProofOfStake()
    requires r.tx.sigOps(b.vtx[0]) <= 100 && ValueOut(b.vtx[0].vout) <= r.powSubsidy + t.nFees
    ensures BlockOk(r, w.txdb, disk, pool, b, us)
  {
    hide Mined, TxsOk, SigOps, Fees, FeesOf, CountsByTx, Onto;
    forall i, j | 0 <= i < j < |us| ensures us[i].tx.hash != us[j].tx.hash {
      assert b.vtx[i].hash != b.vtx[j].hash;
    }
    AllSumUp(w, r.tx, disk, pool, ts, us, |ts|);
    assert us[..|us|] == us && ts[..|ts|] == ts;
    TotalsAre(w, l, ts, t);
  }

  lemma TotalsAre(w: World, l: Limits, ts: seq<Stored>, t: Totals)
    requires Assembled(w, l, ts, t)
    ensures t.nFees == FeesOf(w, ts)
    ensures 100 + SigOps(l.rules, w.txdb, w.disk, w.pool, ts) <= MAX_BLOCK_SIGOPS
  {}
}
