/** Connecting and disconnecting whole blocks
    (src/main.cpp: CBlock::CheckBlock, ConnectBlock, DisconnectBlock). */
module Blocks {
  import opened Basics
  import opened Transactions
  import opened Marks
  import opened Supply
  import opened Inputs

  datatype Block = Block(hash: Hash, hashPrev: Hash, nTime: int, nBits: nat, vtx: seq<Tx>) {
    predicate IsProofOfStake() { |vtx| > 1 && vtx[1].IsCoinStake() }
  }

  function CompactSize(n: nat): nat { if n < 253 then 1 else if n <= 0xFFFF then 3 else 5 }

  /** Where transaction `k` of a block stored at `blockPos` begins. */
  function TxPos(b: Block, blockPos: nat, k: nat): nat
    requires k <= |b.vtx|
  {
    if k == 0 then blockPos + 80 + CompactSize(|b.vtx|) else TxPos(b, blockPos, k - 1) + b.vtx[k - 1].nSize
  }

  /** The transactions of a block with their places on disk. */
  function Placed(b: Block, file: nat, blockPos: nat): (ts: seq<Stored>)
    ensures |ts| == |b.vtx|
    ensures forall k :: 0 <= k < |ts| ==> ts[k] == Stored(b.vtx[k], Pos(file, blockPos, TxPos(b, blockPos, k)))
  {
    seq(|b.vtx|, k requires 0 <= k < |b.vtx| => Stored(b.vtx[k], Pos(file, blockPos, TxPos(b, blockPos, k))))
  }

  /** Rules that depend on the block's place in the chain. */
  datatype BlockRules = BlockRules(
    tx: Rules,
    contextOk: bool,                // proof of work, timestamps, block signature, Merkle root
    powSubsidy: int,                // GetProofOfWorkReward(0)
    coinAge: Option<nat>,           // GetCoinAge of the coinstake, if it can be found
    posSubsidy: nat -> int          // GetProofOfStakeReward(coin age, 0)
  )

  function LegacySigOps(rules: Rules, vtx: seq<Tx>): nat {
    if vtx == [] then 0 else LegacySigOps(rules, vtx[..|vtx| - 1]) + rules.sigOps(vtx[|vtx| - 1])
  }

  /** CBlock::CheckBlock. */
  predicate CheckBlock(r: BlockRules, b: Block) {
    && r.contextOk
    && 0 < |b.vtx| <= MAX_BLOCK_SIZE
    && (forall i :: 0 <= i < |b.vtx| ==> (b.vtx[i].IsCoinBase() <==> i == 0))
    && (b.IsProofOfStake() ==>
      && |b.vtx[0].vout| == 1 && b.vtx[0].vout[0].IsEmpty()
      && forall i :: 2 <= i < |b.vtx| ==> !b.vtx[i].IsCoinStake())
    && (forall i :: 0 <= i < |b.vtx| ==> CheckTransaction(b.vtx[i]) && b.vtx[i].nTime <= b.nTime)
    && (forall i, j :: 0 <= i < j < |b.vtx| ==> b.vtx[i].hash != b.vtx[j].hash)
    && LegacySigOps(r.tx, b.vtx) <= MAX_BLOCK_SIGOPS
  }

  // ---------------------------------------------------------------- what must hold of the transactions

  /** The inputs as seen on top of a given state of the index. */
  function At(view: Index, disk: Disk, pool: map<Hash, Tx>): Source { Source(view, map[], true, disk, pool) }

  function InputsAt(src: Source, vin: seq<OutPoint>): PrevMap {
    map h | h in Hashes(vin) && src.Lookup(h).Some? :: src.Lookup(h).value
  }

  ghost predicate TxOk(rules: Rules, txdb: Index, src: Source, tx: Tx) {
    && MayAdd(txdb, tx.hash)
    && (tx.IsCoinBase() || (src.AllFetchable(tx.vin) && InputsOk(rules, InputsAt(src, tx.vin), tx)))
  }

  /** Every transaction is acceptable on top of the ones before it. */
  ghost predicate TxsOk(rules: Rules, txdb: Index, disk: Disk, pool: map<Hash, Tx>, ts: seq<Stored>) {
    ts == [] || (
      var init, t := ts[..|ts| - 1], ts[|ts| - 1];
      TxsOk(rules, txdb, disk, pool, init) && TxOk(rules, txdb, At(ConnectAll(txdb, init), disk, pool), t.tx))
  }

  ghost function TxSigOps(rules: Rules, src: Source, tx: Tx): nat {
    rules.sigOps(tx) + if tx.IsCoinBase() then 0 else rules.p2shSigOps(tx, InputsAt(src, tx.vin))
  }

  ghost function SigOps(rules: Rules, txdb: Index, disk: Disk, pool: map<Hash, Tx>, ts: seq<Stored>): nat {
    if ts == [] then 0
    else
      var init, t := ts[..|ts| - 1], ts[|ts| - 1];
      SigOps(rules, txdb, disk, pool, init) + TxSigOps(rules, At(ConnectAll(txdb, init), disk, pool), t.tx)
  }

  /** Value in minus value out of a transaction on top of `view`. */
  ghost function Surplus(view: Index, disk: Disk, tx: Tx): int {
    ValueIn(view, disk, tx.Spends()) - ValueOut(tx.vout)
  }

  ghost function Fees(txdb: Index, disk: Disk, ts: seq<Stored>): int {
    if ts == [] then 0
    else
      var init, tx := ts[..|ts| - 1], ts[|ts| - 1].tx;
      Fees(txdb, disk, init)
      + if tx.IsCoinBase() || tx.IsCoinStake() then 0 else Surplus(ConnectAll(txdb, init), disk, tx)
  }

  ghost function StakeReward(txdb: Index, disk: Disk, ts: seq<Stored>): int {
    if ts == [] then 0
    else
      var init, tx := ts[..|ts| - 1], ts[|ts| - 1].tx;
      if !tx.IsCoinBase() && tx.IsCoinStake() then -Surplus(ConnectAll(txdb, init), disk, tx)
      else StakeReward(txdb, disk, init)
  }

  ghost predicate RewardOk(r: BlockRules, txdb: Index, disk: Disk, b: Block, ts: seq<Stored>)
    requires b.vtx != []
  {
    if b.IsProofOfStake() then
      r.coinAge.Some? && StakeReward(txdb, disk, ts) <= r.posSubsidy(r.coinAge.value) + Fees(txdb, disk, ts)
    else
      ValueOut(b.vtx[0].vout) <= r.powSubsidy + Fees(txdb, disk, ts)
  }

  /** Exactly the blocks that ConnectBlock accepts. */
  ghost predicate BlockOk(r: BlockRules, txdb: Index, disk: Disk, pool: map<Hash, Tx>, b: Block, ts: seq<Stored>) {
    && CheckBlock(r, b)
    && TxsOk(r.tx, txdb, disk, pool, ts)
    && SigOps(r.tx, txdb, disk, pool, ts) <= MAX_BLOCK_SIGOPS
    && RewardOk(r, txdb, disk, b, ts)
  }

  // ---------------------------------------------------------------- small facts

  ghost predicate GoodDisk(disk: Disk) { NullPos !in disk && MEMPOOL_POS !in disk }

  lemma FetchedIs(src: Source, view: Index, vin: seq<OutPoint>, inputs: PrevMap)
    requires src.useQueue && src.View() == view && src.Fetched(vin, inputs)
    ensures inputs == InputsAt(At(view, src.disk, src.pool), vin)
  {
    var at := At(view, src.disk, src.pool);
    assert at.View() == view;
    forall h | h in Hashes(vin)
      ensures at.Lookup(h) == src.Lookup(h) && h in inputs && at.Lookup(h) == Some(inputs[h])
    {}
  }

  lemma SameSource(src: Source, view: Index, vin: seq<OutPoint>)
    requires src.useQueue && src.View() == view
    ensures At(view, src.disk, src.pool).AllFetchable(vin) <==> src.AllFetchable(vin)
  {
    var at := At(view, src.disk, src.pool);
    assert at.View() == view;
    forall o: OutPoint ensures at.Fetchable(o) <==> src.Fetchable(o) {}
  }

  /** The fetched entries are the view, cut down to the transactions referred to. */
  lemma IndicesAt(view: Index, disk: Disk, pool: map<Hash, Tx>, vin: seq<OutPoint>)
    requires At(view, disk, pool).AllFetchable(vin)
    ensures InputsAt(At(view, disk, pool), vin).Keys == Hashes(vin)
    ensures Hashes(vin) <= view.Keys
    ensures Indices(InputsAt(At(view, disk, pool), vin)) == map h | h in Hashes(vin) && h in view :: view[h]
  {
    var src := At(view, disk, pool);
    assert src.View() == view;
    forall h | h in Hashes(vin) ensures src.Lookup(h).Some? && h in view && src.Lookup(h).value.txindex == view[h] {
      var i :| 0 <= i < |vin| && vin[i].hash == h;
      assert src.Fetchable(vin[i]);
    }
  }

  /** Writing marks through the queue marks the view. */
  lemma ViewMarked(txdb: Index, queue: Index, vin: seq<OutPoint>, pos: DiskTxPos, part: Index)
    requires Hashes(vin) <= (txdb + queue).Keys
    requires part == map h | h in Hashes(vin) && h in txdb + queue :: (txdb + queue)[h]
    ensures txdb + (queue + MarkAll(part, vin, pos)) == MarkAll(txdb + queue, vin, pos)
  {
    var view := txdb + queue;
    var l, r := txdb + (queue + MarkAll(part, vin, pos)), MarkAll(view, vin, pos);
    assert l.Keys == view.Keys;
    forall h | h in view ensures l[h] == r[h] {
      if h in Hashes(vin) {
        assert l[h] == MarkAll(part, vin, pos)[h];
      } else {
        assert l[h] == view[h];
        forall n | 0 <= n < |view[h].vSpent| ensures r[h].vSpent[n] == view[h].vSpent[n] {
        }
        assert r[h].vSpent == view[h].vSpent;
      }
    }
  }

  lemma SpendableAt(view: Index, part: Index, tx: Tx)
    requires !tx.IsCoinBase()
    requires part == map h | h in Hashes(tx.vin) && h in view :: view[h]
    ensures Spendable(part, tx) ==> Spendable(view, tx)
  {
    if Spendable(part, tx) {
      forall o | o in tx.Spends() ensures Unspent(view, o) {
        assert Unspent(part, o);
      }
    }
  }

  lemma {:induction false} InputSumIs(view: Index, disk: Disk, pool: map<Hash, Tx>, all: seq<OutPoint>,
    vin: seq<OutPoint>)
    requires WellFormed(view, disk) && GoodDisk(disk) && At(view, disk, pool).AllFetchable(all)
    requires forall o :: o in vin ==> o in all
    ensures InputSum(InputsAt(At(view, disk, pool), all), vin) == ValueIn(view, disk, vin)
  {
    if vin != [] {
      var o := vin[|vin| - 1];
      InputSumIs(view, disk, pool, all, vin[..|vin| - 1]);
      assert o in all;
      var i :| 0 <= i < |all| && all[i] == o;
      assert all[i].hash in Hashes(all);
      assert At(view, disk, pool).Fetchable(all[i]);
      assert At(view, disk, pool).View() == view;
    }
  }

  lemma {:induction false} FullySpentStays(idx: Index, ts: seq<Stored>, h: Hash)
    requires Connectable(idx, ts) && h !in Ids(ts) && MayAdd(idx, h)
    ensures MayAdd(ConnectAll(idx, ts), h)
  {
    ConnectAllKeys(idx, ts);
    if ts != [] && h in idx {
      var init, t := ts[..|ts| - 1], ts[|ts| - 1];
      IdsSnoc(ts);
      FullySpentStays(idx, init, h);
      ConnectAllKeys(idx, init);
      var before := ConnectAll(idx, init);
      assert ConnectAll(idx, ts)[h] == MarkAll(before, t.tx.Spends(), t.pos)[h];
      forall n | 0 <= n < |before[h].vSpent| ensures ConnectAll(idx, ts)[h].vSpent[n] != NullPos {
        assert before[h].vSpent[n] != NullPos;
      }
    }
  }

  // ---------------------------------------------------------------- what acceptance implies

  /** An accepted list of transactions is connectable in the sense of the fold. */
  lemma {:induction false} TxsOkConnectable(rules: Rules, txdb: Index, disk: Disk, pool: map<Hash, Tx>, ts: seq<Stored>)
    requires TxsOk(rules, txdb, disk, pool, ts) && DistinctIds(ts)
    requires forall k :: 0 <= k < |ts| ==> ts[k].pos != NullPos
    ensures Connectable(txdb, ts)
  {
    if ts != [] {
      var init, t := ts[..|ts| - 1], ts[|ts| - 1];
      TxsOkConnectable(rules, txdb, disk, pool, init);
      var view := ConnectAll(txdb, init);
      assert t.tx.hash !in Ids(init);
      FullySpentStays(txdb, init, t.tx.hash);
      if !t.tx.IsCoinBase() {
        IndicesAt(view, disk, pool, t.tx.vin);
        SpendableAt(view, Indices(InputsAt(At(view, disk, pool), t.tx.vin)), t.tx);
      }
      assert StepOk(view, t);
    }
  }

  /** The supply change of a block is what coinbase and coinstakes create beyond the fees. */
  lemma {:induction false} SupplyChange(txdb: Index, disk: Disk, b: Block, ts: seq<Stored>)
    requires |ts| <= |b.vtx| && forall k :: 0 <= k < |ts| ==> ts[k].tx == b.vtx[k]
    requires b.vtx != [] && forall i :: 0 <= i < |b.vtx| ==> (b.vtx[i].IsCoinBase() <==> i == 0)
    requires b.IsProofOfStake() && forall i :: 2 <= i < |b.vtx| ==> !b.vtx[i].IsCoinStake()
    requires ValueOut(b.vtx[0].vout) == 0
    ensures BlockValueOut(ts) - BlockValueIn(txdb, disk, ts) == StakeReward(txdb, disk, ts) - Fees(txdb, disk, ts)
    ensures |ts| < 2 ==> StakeReward(txdb, disk, ts) == 0
  {
    if ts != [] {
      SupplyChange(txdb, disk, b, ts[..|ts| - 1]);
    }
  }

  /** `ts` are the transactions of `b` at proper places. */
  ghost predicate Places(b: Block, ts: seq<Stored>) {
    |ts| == |b.vtx|
    && forall k :: 0 <= k < |ts| ==> ts[k].tx == b.vtx[k] && ts[k].pos != NullPos && ts[k].pos != MEMPOOL_POS
  }

  lemma BlockOkConnectable(r: BlockRules, txdb: Index, disk: Disk, pool: map<Hash, Tx>, b: Block, ts: seq<Stored>)
    requires BlockOk(r, txdb, disk, pool, b, ts) && Places(b, ts)
    ensures Connectable(txdb, ts) && DistinctIds(ts)
  {
    TxsOkConnectable(r.tx, txdb, disk, pool, ts);
  }

  lemma StakeCoinbaseIsEmpty(b: Block)
    requires b.vtx != [] && |b.vtx[0].vout| == 1 && b.vtx[0].vout[0].IsEmpty()
    ensures ValueOut(b.vtx[0].vout) == 0
  {
    assert b.vtx[0].vout[..0] == [];
  }

  /** Connecting an accepted proof-of-stake block raises the total value of unspent
      outputs by at most GetProofOfStakeReward(coin age, 0). */
  lemma StakeBlockMint(r: BlockRules, txdb: Index, disk: Disk, pool: map<Hash, Tx>, b: Block, ts: seq<Stored>)
    requires WellFormed(txdb, disk) && OnDisk(disk, ts) && Places(b, ts)
    requires BlockOk(r, txdb, disk, pool, b, ts) && b.IsProofOfStake()
    ensures WellFormed(ConnectAll(txdb, ts), disk)
    ensures r.coinAge.Some?
    ensures Total(ConnectAll(txdb, ts), disk) <= Total(txdb, disk) + r.posSubsidy(r.coinAge.value)
  {
    BlockOkConnectable(r, txdb, disk, pool, b, ts);
    TotalConnectAll(txdb, disk, ts);
    StakeCoinbaseIsEmpty(b);
    SupplyChange(txdb, disk, b, ts);
  }

  // ---------------------------------------------------------------- the methods

  lemma {:induction false} TxsOkAt(rules: Rules, txdb: Index, disk: Disk, pool: map<Hash, Tx>, ts: seq<Stored>, k: nat)
    requires k < |ts| && TxsOk(rules, txdb, disk, pool, ts)
    ensures TxOk(rules, txdb, At(ConnectAll(txdb, ts[..k]), disk, pool), ts[k].tx)
    decreases |ts|
  {
    if k < |ts| - 1 {
      TxsOkAt(rules, txdb, disk, pool, ts[..|ts| - 1], k);
      assert ts[..|ts| - 1][..k] == ts[..k];
    }
  }

  lemma {:induction false} SigOpsGrow(rules: Rules, txdb: Index, disk: Disk, pool: map<Hash, Tx>, ts: seq<Stored>,
    k: nat)
    requires k <= |ts|
    ensures SigOps(rules, txdb, disk, pool, ts[..k]) <= SigOps(rules, txdb, disk, pool, ts)
    decreases |ts|
  {
    if k == |ts| {
      assert ts[..k] == ts;
    } else {
      SigOpsGrow(rules, txdb, disk, pool, ts[..|ts| - 1], k);
      assert ts[..|ts| - 1][..k] == ts[..k];
    }
  }

  lemma PlacedPlaces(b: Block, file: nat, blockPos: nat)
    ensures Places(b, Placed(b, file, blockPos))
  {
    forall k | 0 <= k < |b.vtx| ensures Pos(file, blockPos, TxPos(b, blockPos, k)) != MEMPOOL_POS {
      TxPosAfterHeader(b, blockPos, k);
    }
  }

  lemma {:induction false} TxPosAfterHeader(b: Block, blockPos: nat, k: nat)
    requires k <= |b.vtx|
    ensures TxPos(b, blockPos, k) > blockPos + 80
  {
    if k > 0 { TxPosAfterHeader(b, blockPos, k - 1); }
  }

  /** FetchInputs and ConnectInputs together mark the view, through the queue. */
  lemma MarkedThroughQueue(txdb: Index, queue: Index, disk: Disk, pool: map<Hash, Tx>, vin: seq<OutPoint>,
    pos: DiskTxPos)
    requires At(txdb + queue, disk, pool).AllFetchable(vin)
    ensures var inputs := InputsAt(At(txdb + queue, disk, pool), vin);
      && inputs.Keys == Hashes(vin)
      && txdb + (queue + MarkAll(Indices(inputs), vin, pos)) == MarkAll(txdb + queue, vin, pos)
  {
    IndicesAt(txdb + queue, disk, pool, vin);
    ViewMarked(txdb, queue, vin, pos, Indices(InputsAt(At(txdb + queue, disk, pool), vin)));
  }

  /** The part of a round that handles a transaction with inputs. */
  method ConnectSpends(rules: Rules, txdb: Index, queue0: Index, disk: Disk, pool: map<Hash, Tx>, t: Stored,
    nSigOps0: nat)
    returns (ok: bool, queue: Index, nSigOps: nat, nTxValueIn: int)
    requires WellFormed(txdb + queue0, disk) && GoodDisk(disk) && t.pos != NullPos && !t.tx.IsCoinBase()
    ensures var src := At(txdb + queue0, disk, pool);
      ok <==> (
        && src.AllFetchable(t.tx.vin) && InputsOk(rules, InputsAt(src, t.tx.vin), t.tx)
        && nSigOps0 + rules.p2shSigOps(t.tx, InputsAt(src, t.tx.vin)) <= MAX_BLOCK_SIGOPS)
    ensures ok ==>
      && txdb + queue == MarkAll(txdb + queue0, t.tx.vin, t.pos)
      && nSigOps == nSigOps0 + rules.p2shSigOps(t.tx, InputsAt(At(txdb + queue0, disk, pool), t.tx.vin))
      && nTxValueIn == ValueIn(txdb + queue0, disk, t.tx.vin)
  {
    ok, queue, nSigOps, nTxValueIn := false, queue0, nSigOps0, 0;
    var src := Source(txdb, queue0, true, disk, pool);
    SameSource(src, txdb + queue0, t.tx.vin);
    var fetched, inputs := FetchInputs(src, t.tx);
    if !fetched {
      return;
    }
    FetchedIs(src, txdb + queue0, t.tx.vin, inputs);
    nSigOps := nSigOps + rules.p2shSigOps(t.tx, inputs);
    if nSigOps > MAX_BLOCK_SIGOPS {
      return;
    }
    nTxValueIn := InputSum(inputs, t.tx.vin);
    InputSumIs(txdb + queue0, disk, pool, t.tx.vin, t.tx.vin);
    MarkedThroughQueue(txdb, queue0, disk, pool, t.tx.vin, t.pos);
    ok, queue := ConnectInputs(rules, inputs, queue0, t.tx, t.pos, true);
  }

  /** One round of ConnectBlock's loop, on top of the view `txdb + queue0`. */
  method ConnectTx(rules: Rules, txdb: Index, queue0: Index, disk: Disk, pool: map<Hash, Tx>, t: Stored, nSigOps0: nat)
    returns (ok: bool, queue: Index, nSigOps: nat, nTxValueIn: int)
    requires WellFormed(txdb + queue0, disk) && GoodDisk(disk) && t.pos != NullPos
    ensures var src := At(txdb + queue0, disk, pool);
      ok <==> TxOk(rules, txdb, src, t.tx) && nSigOps0 + TxSigOps(rules, src, t.tx) <= MAX_BLOCK_SIGOPS
    ensures ok ==>
      && txdb + queue == Connect(txdb + queue0, t)
      && nSigOps == nSigOps0 + TxSigOps(rules, At(txdb + queue0, disk, pool), t.tx)
      && nTxValueIn == ValueIn(txdb + queue0, disk, t.tx.Spends())
  {
    ok, queue, nSigOps, nTxValueIn := false, queue0, nSigOps0, 0;
    if !MayAdd(txdb, t.tx.hash) {
      return;
    }
    nSigOps := nSigOps0 + rules.sigOps(t.tx);
    if nSigOps > MAX_BLOCK_SIGOPS {
      return;
    }
    if t.tx.IsCoinBase() {
      MarkAllNone(txdb + queue0, t.pos);
    } else {
      var connected;
      connected, queue, nSigOps, nTxValueIn := ConnectSpends(rules, txdb, queue0, disk, pool, t, nSigOps);
      if !connected {
        return;
      }
    }
    Overlay(txdb, queue, t.tx.hash, TxIndex(t.pos, Nulls(|t.tx.vout|)));
    queue := queue[t.tx.hash := TxIndex(t.pos, Nulls(|t.tx.vout|))];
    ok := true;
  }

  lemma Overlay(txdb: Index, queue: Index, h: Hash, e: TxIndex)
    ensures txdb + queue[h := e] == (txdb + queue)[h := e]
  {}

  datatype Tally = Tally(nFees: int, nValueIn: int, nValueOut: int, nStakeReward: int)

  ghost function Tallied(txdb: Index, disk: Disk, ts: seq<Stored>): Tally {
    Tally(Fees(txdb, disk, ts), BlockValueIn(txdb, disk, ts), BlockValueOut(ts), StakeReward(txdb, disk, ts))
  }

  function AddTx(sums: Tally, tx: Tx, nTxValueIn: int): Tally {
    var nTxValueOut := ValueOut(tx.vout);
    Tally(
      if tx.IsCoinBase() || tx.IsCoinStake() then sums.nFees else sums.nFees + nTxValueIn - nTxValueOut,
      sums.nValueIn + nTxValueIn,
      sums.nValueOut + nTxValueOut,
      if !tx.IsCoinBase() && tx.IsCoinStake() then nTxValueOut - nTxValueIn else sums.nStakeReward)
  }

  lemma ConnectStep(txdb: Index, ts: seq<Stored>, k: nat)
    requires k < |ts|
    ensures ConnectAll(txdb, ts[..k + 1]) == Connect(ConnectAll(txdb, ts[..k]), ts[k])
  {
    assert ts[..k + 1][..k] == ts[..k];
  }

  lemma TxsOkStep(rules: Rules, txdb: Index, disk: Disk, pool: map<Hash, Tx>, ts: seq<Stored>, k: nat)
    requires k < |ts| && TxsOk(rules, txdb, disk, pool, ts[..k])
    requires TxOk(rules, txdb, At(ConnectAll(txdb, ts[..k]), disk, pool), ts[k].tx)
    ensures TxsOk(rules, txdb, disk, pool, ts[..k + 1])
  {
    assert ts[..k + 1][..k] == ts[..k];
  }

  lemma SigOpsStep(rules: Rules, txdb: Index, disk: Disk, pool: map<Hash, Tx>, ts: seq<Stored>, k: nat)
    requires k < |ts|
    ensures SigOps(rules, txdb, disk, pool, ts[..k + 1])
         == SigOps(rules, txdb, disk, pool, ts[..k])
           + TxSigOps(rules, At(ConnectAll(txdb, ts[..k]), disk, pool), ts[k].tx)
  {
    assert ts[..k + 1][..k] == ts[..k];
  }

  lemma TallyStep(txdb: Index, disk: Disk, ts: seq<Stored>, k: nat)
    requires k < |ts|
    ensures Tallied(txdb, disk, ts[..k + 1])
         == AddTx(Tallied(txdb, disk, ts[..k]), ts[k].tx, ValueIn(ConnectAll(txdb, ts[..k]), disk, ts[k].tx.Spends()))
  {
    assert ts[..k + 1][..k] == ts[..k];
  }

  /** ConnectBlock's loop over the transactions. */
  method ConnectTxs(rules: Rules, txdb: Index, disk: Disk, pool: map<Hash, Tx>, ts: seq<Stored>)
    returns (ok: bool, queue: Index, sums: Tally)
    requires WellFormed(txdb, disk) && GoodDisk(disk) && OnDisk(disk, ts) && DistinctIds(ts)
    ensures ok <==> TxsOk(rules, txdb, disk, pool, ts) && SigOps(rules, txdb, disk, pool, ts) <= MAX_BLOCK_SIGOPS
    ensures ok ==> txdb + queue == ConnectAll(txdb, ts) && sums == Tallied(txdb, disk, ts)
  {
    queue := map[];
    sums := Tally(0, 0, 0, 0);
    var nSigOps := 0;
    assert txdb + queue == txdb;
    for k := 0 to |ts|
      invariant txdb + queue == ConnectAll(txdb, ts[..k])
      invariant TxsOk(rules, txdb, disk, pool, ts[..k])
      invariant nSigOps == SigOps(rules, txdb, disk, pool, ts[..k]) <= MAX_BLOCK_SIGOPS
      invariant sums == Tallied(txdb, disk, ts[..k])
    {
      PrefixWellFormed(rules, txdb, disk, pool, ts, k);
      ConnectStep(txdb, ts, k);
      SigOpsStep(rules, txdb, disk, pool, ts, k);
      TallyStep(txdb, disk, ts, k);
      var accepted, nTxValueIn;
      accepted, queue, nSigOps, nTxValueIn := ConnectTx(rules, txdb, queue, disk, pool, ts[k], nSigOps);
      if !accepted {
        RejectedAt(rules, txdb, disk, pool, ts, k);
        return false, queue, sums;
      }
      TxsOkStep(rules, txdb, disk, pool, ts, k);
      sums := AddTx(sums, ts[k].tx, nTxValueIn);
    }
    assert ts[..|ts|] == ts;
    ok := true;
  }

  method ConnectBlock(r: BlockRules, txdb0: Index, disk: Disk, pool: map<Hash, Tx>, b: Block, ts: seq<Stored>,
    prevSupply: int)
    returns (ok: bool, txdb: Index, nMoneySupply: int)
    requires WellFormed(txdb0, disk) && GoodDisk(disk) && OnDisk(disk, ts) && Places(b, ts)
    ensures ok <==> BlockOk(r, txdb0, disk, pool, b, ts)
    ensures ok ==> txdb == ConnectAll(txdb0, ts)
    ensures ok ==> nMoneySupply == prevSupply + BlockValueOut(ts) - BlockValueIn(txdb0, disk, ts)
  {
    ok, txdb, nMoneySupply := false, txdb0, prevSupply;
    if !CheckBlock(r, b) {
      return;
    }
    var accepted, queue, sums := ConnectTxs(r.tx, txdb0, disk, pool, ts);
    if !accepted {
      return;
    }
    if !b.IsProofOfStake() {
      if ValueOut(b.vtx[0].vout) > r.powSubsidy + sums.nFees {
        return;
      }
    } else {
      if r.coinAge.None? || sums.nStakeReward > r.posSubsidy(r.coinAge.value) + sums.nFees {
        return;
      }
    }
    nMoneySupply := prevSupply + sums.nValueOut - sums.nValueIn;
    txdb := txdb0 + queue;
    ok := true;
  }

  lemma PrefixWellFormed(rules: Rules, txdb: Index, disk: Disk, pool: map<Hash, Tx>, ts: seq<Stored>, k: nat)
    requires k <= |ts| && TxsOk(rules, txdb, disk, pool, ts[..k]) && DistinctIds(ts)
    requires WellFormed(txdb, disk) && OnDisk(disk, ts) && GoodDisk(disk)
    ensures WellFormed(ConnectAll(txdb, ts[..k]), disk)
  {
    TxsOkConnectable(rules, txdb, disk, pool, ts[..k]);
    TotalConnectAll(txdb, disk, ts[..k]);
  }

  /** A round that fails makes the whole block unacceptable. */
  lemma RejectedAt(rules: Rules, txdb: Index, disk: Disk, pool: map<Hash, Tx>, ts: seq<Stored>, k: nat)
    requires k < |ts|
    requires var src := At(ConnectAll(txdb, ts[..k]), disk, pool);
      !(TxOk(rules, txdb, src, ts[k].tx)
        && SigOps(rules, txdb, disk, pool, ts[..k]) + TxSigOps(rules, src, ts[k].tx) <= MAX_BLOCK_SIGOPS)
    ensures !(TxsOk(rules, txdb, disk, pool, ts) && SigOps(rules, txdb, disk, pool, ts) <= MAX_BLOCK_SIGOPS)
  {
    if TxsOk(rules, txdb, disk, pool, ts) {
      TxsOkAt(rules, txdb, disk, pool, ts, k);
      SigOpsGrow(rules, txdb, disk, pool, ts, k + 1);
      assert ts[..k + 1][..k] == ts[..k];
    }
  }

  ghost predicate CanDisconnect(idx: Index, ts: seq<Stored>) {
    ts == [] || (
      var t := ts[|ts| - 1].tx;
      (forall o :: o in t.Spends() ==> InRange(idx, o)) && CanDisconnect(Disconnect(idx, t), ts[..|ts| - 1]))
  }

  method DisconnectBlock(txdb0: Index, ts: seq<Stored>) returns (ok: bool, txdb: Index)
    ensures ok <==> CanDisconnect(txdb0, ts)
    ensures ok ==> txdb == DisconnectAll(txdb0, ts)
  {
    txdb := txdb0;
    var i := |ts|;
    assert ts[..i] == ts;
    while i > 0
      invariant 0 <= i <= |ts|
      invariant CanDisconnect(txdb0, ts) <==> CanDisconnect(txdb, ts[..i])
      invariant DisconnectAll(txdb0, ts) == DisconnectAll(txdb, ts[..i])
    {
      i := i - 1;
      assert ts[..i + 1][..i] == ts[..i];
      var done;
      done, txdb := DisconnectInputs(txdb, ts[i].tx);
      if !done {
        return false, txdb;
      }
    }
    ok := true;
  }

  /** A connected block can always be disconnected again. */
  lemma {:induction false} ConnectedCanDisconnect(idx: Index, ts: seq<Stored>)
    requires Connectable(idx, ts) && DistinctIds(ts) && Fresh(idx, ts)
    ensures CanDisconnect(ConnectAll(idx, ts), ts)
  {
    if ts != [] {
      var init, t := ts[..|ts| - 1], ts[|ts| - 1];
      var before := ConnectAll(idx, init);
      assert t.tx.hash !in before by { ConnectAllKeys(idx, init); }
      ConnectUndo(before, t);
      ConnectedCanDisconnect(idx, init);
      forall o | o in t.tx.Spends() ensures InRange(ConnectAll(idx, ts), o) {
        assert Unspent(before, o);
      }
    }
  }
}
