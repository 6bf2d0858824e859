/** What transactions and blocks can create: fees, subsidies and stake rewards
    (src/main.cpp: ConnectInputs, ConnectBlock). */
module Mint {
  import opened Basics
  import opened Transactions
  import opened Marks
  import opened Supply
  import opened Inputs
  import opened Blocks

  // ---------------------------------------------------------------- fees

  predicate Ordinary(tx: Tx) { !tx.IsCoinBase() && !tx.IsCoinStake() }

  /** An accepted ordinary transaction spends what it creates and its fee. */
  lemma OrdinaryPays(rules: Rules, txdb: Index, view: Index, disk: Disk, pool: map<Hash, Tx>, tx: Tx)
    requires WellFormed(view, disk) && GoodDisk(disk) && Ordinary(tx) && TxOk(rules, txdb, At(view, disk, pool), tx)
    ensures ValueIn(view, disk, tx.vin) >= ValueOut(tx.vout)
    ensures ValueIn(view, disk, tx.vin) >= ValueOut(tx.vout) + rules.minFee(tx)
  {
    InputSumIs(view, disk, pool, tx.vin, tx.vin);
  }

  /** Every input of an accepted transaction is an unspent output of an older, stored and, where it must
      be, mature transaction, and signed for. */
  lemma InputsAreSound(rules: Rules, txdb: Index, view: Index, disk: Disk, pool: map<Hash, Tx>, tx: Tx, i: nat)
    requires WellFormed(view, disk) && GoodDisk(disk) && !tx.IsCoinBase() && i < |tx.vin|
    requires TxOk(rules, txdb, At(view, disk, pool), tx)
    ensures Unspent(view, tx.vin[i]) && view[tx.vin[i].hash].pos in disk
    ensures var e := view[tx.vin[i].hash]; var prev := disk[e.pos];
      && tx.vin[i].n < |prev.vout| && MoneyRange(prev.vout[tx.vin[i].n].nValue)
      && prev.nTime <= tx.nTime && rules.signed(prev, tx, i)
      && (prev.IsCoinBase() || prev.IsCoinStake() ==> !rules.immature(e.pos))
  {
    var src := At(view, disk, pool);
    assert src.View() == view;
    IndicesAt(view, disk, pool, tx.vin);
    var inputs := InputsAt(src, tx.vin);
    SpendableAt(view, Indices(inputs), tx);
    assert src.Fetchable(tx.vin[i]) && tx.vin[i].hash in Hashes(tx.vin);
    assert InputOk(rules, inputs, tx, i) && Signed(rules, inputs, tx, i);
  }

  /** The inputs are worth what `tx` creates and a fee that is allowed. */
  ghost predicate Balances(rules: Rules, inputs: PrevMap, tx: Tx, fee: nat) {
    InputSum(inputs, tx.vin) == ValueOut(tx.vout) + fee && rules.minFee(tx) <= fee <= MAX_TX
  }

  /** A transaction whose inputs are in order is accepted exactly if it is a coinstake, or its inputs are
      worth what it creates and a fee. */
  lemma FeeIsWhatIsLeft(rules: Rules, inputs: PrevMap, tx: Tx)
    requires (forall i :: 0 <= i < |tx.vin| ==> InputOk(rules, inputs, tx, i)) && Spendable(Indices(inputs), tx)
    requires forall i :: 0 <= i < |tx.vin| ==> Signed(rules, inputs, tx, i)
    ensures InputsOk(rules, inputs, tx) <==> tx.IsCoinStake() || exists fee :: Balances(rules, inputs, tx, fee)
  {
    var fee := InputSum(inputs, tx.vin) - ValueOut(tx.vout);
    if InputsOk(rules, inputs, tx) && !tx.IsCoinStake() {
      assert Balances(rules, inputs, tx, fee);
    }
  }

  /** What the fee rule asks of the ordinary transactions together. */
  function MinFees(rules: Rules, ts: seq<Stored>): int {
    if ts == [] then 0
    else
      MinFees(rules, ts[..|ts| - 1])
      + if Ordinary(ts[|ts| - 1].tx) then rules.minFee(ts[|ts| - 1].tx) else 0
  }

  ghost predicate Accepted(r: Rules, txdb: Index, disk: Disk, pool: map<Hash, Tx>, ts: seq<Stored>) {
    && WellFormed(txdb, disk) && GoodDisk(disk) && OnDisk(disk, ts) && DistinctIds(ts)
    && TxsOk(r, txdb, disk, pool, ts)
  }

  lemma AcceptedPrefix(rules: Rules, txdb: Index, disk: Disk, pool: map<Hash, Tx>, ts: seq<Stored>, k: nat)
    requires Accepted(rules, txdb, disk, pool, ts) && k <= |ts|
    ensures Accepted(rules, txdb, disk, pool, ts[..k]) && WellFormed(ConnectAll(txdb, ts[..k]), disk)
    ensures Connectable(txdb, ts[..k])
  {
    hide TxOk, StepOk;
    TxsOkPrefix(rules, txdb, disk, pool, ts, k);
    PrefixWellFormed(rules, txdb, disk, pool, ts, k);
    TxsOkConnectable(rules, txdb, disk, pool, ts[..k]);
  }

  /** The next transaction on top of those before it. */
  lemma AcceptedStep(rules: Rules, txdb: Index, disk: Disk, pool: map<Hash, Tx>, ts: seq<Stored>, k: nat)
    requires Accepted(rules, txdb, disk, pool, ts) && k < |ts|
    ensures Accepted(rules, txdb, disk, pool, ts[..k]) && WellFormed(ConnectAll(txdb, ts[..k]), disk)
    ensures TxOk(rules, txdb, At(ConnectAll(txdb, ts[..k]), disk, pool), ts[k].tx)
    ensures StepOk(ConnectAll(txdb, ts[..k]), ts[k])
    ensures ConnectAll(txdb, ts[..k + 1]) == Connect(ConnectAll(txdb, ts[..k]), ts[k])
  {
    hide TxOk, StepOk, TxsOk;
    AcceptedPrefix(rules, txdb, disk, pool, ts, k);
    AcceptedPrefix(rules, txdb, disk, pool, ts, k + 1);
    TxsOkAt(rules, txdb, disk, pool, ts, k);
    assert ts[..k + 1][..k] == ts[..k] && ts[..k + 1][k] == ts[k];
  }

  lemma {:induction false} TxsOkPrefix(rules: Rules, txdb: Index, disk: Disk, pool: map<Hash, Tx>, ts: seq<Stored>,
    k: nat)
    requires TxsOk(rules, txdb, disk, pool, ts) && k <= |ts|
    ensures TxsOk(rules, txdb, disk, pool, ts[..k])
    decreases |ts|
  {
    if k == |ts| {
      assert ts[..k] == ts;
    } else {
      TxsOkPrefix(rules, txdb, disk, pool, ts[..|ts| - 1], k);
      assert ts[..|ts| - 1][..k] == ts[..k];
    }
  }

  /** Connecting an accepted ordinary transaction never raises the total of the unspent outputs, and
      lowers it by at least the fee asked for. */
  lemma OrdinaryNeverMints(rules: Rules, txdb: Index, disk: Disk, pool: map<Hash, Tx>, ts: seq<Stored>, k: nat)
    requires Accepted(rules, txdb, disk, pool, ts) && k < |ts| && Ordinary(ts[k].tx)
    ensures WellFormed(ConnectAll(txdb, ts[..k]), disk) && WellFormed(ConnectAll(txdb, ts[..k + 1]), disk)
    ensures var before, after := Total(ConnectAll(txdb, ts[..k]), disk), Total(ConnectAll(txdb, ts[..k + 1]), disk);
      after <= before && after + rules.minFee(ts[k].tx) <= before
  {
    hide TxsOk, TxOk;
    AcceptedStep(rules, txdb, disk, pool, ts, k);
    OrdinaryPays(rules, txdb, ConnectAll(txdb, ts[..k]), disk, pool, ts[k].tx);
    TotalConnect(ConnectAll(txdb, ts[..k]), disk, ts[k]);
  }

  /** The fees of an accepted block are never negative, and at least what the rule asks for. */
  lemma {:induction false} FeesAtLeast(rules: Rules, txdb: Index, disk: Disk, pool: map<Hash, Tx>, ts: seq<Stored>)
    requires Accepted(rules, txdb, disk, pool, ts)
    ensures Fees(txdb, disk, ts) >= 0 && Fees(txdb, disk, ts) >= MinFees(rules, ts)
  {
    if ts != [] {
      var n := |ts| - 1;
      AcceptedStep(rules, txdb, disk, pool, ts, n);
      FeesAtLeast(rules, txdb, disk, pool, ts[..n]);
      if Ordinary(ts[n].tx) {
        OrdinaryPays(rules, txdb, ConnectAll(txdb, ts[..n]), disk, pool, ts[n].tx);
      }
    }
  }

  // ---------------------------------------------------------------- blocks

  /** What the coinstakes of a block create beyond what they spend. */
  ghost function StakeMints(txdb: Index, disk: Disk, ts: seq<Stored>): int {
    if ts == [] then 0
    else
      var init, tx := ts[..|ts| - 1], ts[|ts| - 1].tx;
      StakeMints(txdb, disk, init)
      + if tx.IsCoinStake() then ValueOut(tx.vout) - ValueIn(ConnectAll(txdb, init), disk, tx.vin) else 0
  }

  predicate NoStake(b: Block) { forall i :: 0 <= i < |b.vtx| ==> !b.vtx[i].IsCoinStake() }

  lemma {:induction false} NothingStaked(txdb: Index, disk: Disk, ts: seq<Stored>)
    requires forall k :: 0 <= k < |ts| ==> !ts[k].tx.IsCoinStake()
    ensures StakeMints(txdb, disk, ts) == 0
  {
    if ts != [] { NothingStaked(txdb, disk, ts[..|ts| - 1]); }
  }

  /** Whatever a block creates comes from its coinbase and its coinstakes; the fees are what is lost. */
  lemma {:induction false} Created(txdb: Index, disk: Disk, ts: seq<Stored>)
    requires forall k :: 0 <= k < |ts| ==> (ts[k].tx.IsCoinBase() <==> k == 0)
    ensures BlockValueOut(ts) - BlockValueIn(txdb, disk, ts)
      == (if ts == [] then 0 else ValueOut(ts[0].tx.vout)) + StakeMints(txdb, disk, ts) - Fees(txdb, disk, ts)
  {
    if ts != [] {
      Created(txdb, disk, ts[..|ts| - 1]);
    }
  }

  /** What an accepted block changes. */
  lemma BlockRise(r: BlockRules, txdb: Index, disk: Disk, pool: map<Hash, Tx>, b: Block, ts: seq<Stored>)
    requires WellFormed(txdb, disk) && GoodDisk(disk) && OnDisk(disk, ts) && Places(b, ts)
    requires BlockOk(r, txdb, disk, pool, b, ts)
    ensures WellFormed(ConnectAll(txdb, ts), disk)
    ensures Total(ConnectAll(txdb, ts), disk)
      == Total(txdb, disk) + ValueOut(b.vtx[0].vout) + StakeMints(txdb, disk, ts) - Fees(txdb, disk, ts)
    ensures Fees(txdb, disk, ts) >= 0
  {
    BlockOkConnectable(r, txdb, disk, pool, b, ts);
    TotalConnectAll(txdb, disk, ts);
    FeesAtLeast(r.tx, txdb, disk, pool, ts);
    forall k | 0 <= k < |ts| ensures ts[k].tx.IsCoinBase() <==> k == 0 {}
    Created(txdb, disk, ts);
  }

  /** An accepted proof-of-work block raises the total by at most the subsidy and what coinstakes in it
      create: without any, by at most the subsidy. */
  lemma WorkBlockMint(r: BlockRules, txdb: Index, disk: Disk, pool: map<Hash, Tx>, b: Block, ts: seq<Stored>)
    requires WellFormed(txdb, disk) && GoodDisk(disk) && OnDisk(disk, ts) && Places(b, ts)
    requires BlockOk(r, txdb, disk, pool, b, ts) && !b.IsProofOfStake()
    ensures WellFormed(ConnectAll(txdb, ts), disk)
    ensures Total(ConnectAll(txdb, ts), disk) <= Total(txdb, disk) + r.powSubsidy + StakeMints(txdb, disk, ts)
    ensures NoStake(b) ==> Total(ConnectAll(txdb, ts), disk) <= Total(txdb, disk) + r.powSubsidy
  {
    BlockRise(r, txdb, disk, pool, b, ts);
    if NoStake(b) {
      NothingStaked(txdb, disk, ts);
    }
  }

  // ---------------------------------------------------------------- the bound fails

  /** The subsidy bounds what a proof-of-work block creates exactly if its coinbase, with what
      coinstakes in it create, stays within subsidy and fees. */
  lemma WorkBlockBound(r: BlockRules, txdb: Index, disk: Disk, pool: map<Hash, Tx>, b: Block, ts: seq<Stored>)
    requires WellFormed(txdb, disk) && GoodDisk(disk) && OnDisk(disk, ts) && Places(b, ts)
    requires BlockOk(r, txdb, disk, pool, b, ts) && !b.IsProofOfStake()
    ensures WellFormed(ConnectAll(txdb, ts), disk)
    ensures Total(ConnectAll(txdb, ts), disk) <= Total(txdb, disk) + r.powSubsidy
       <==> ValueOut(b.vtx[0].vout) + StakeMints(txdb, disk, ts) <= r.powSubsidy + Fees(txdb, disk, ts)
  {
    BlockRise(r, txdb, disk, pool, b, ts);
  }

  function Paid(id: Hash): Tx { Tx(id, 0, 0, [OutPoint(7, id)], [TxOut(100, [1])], 100, 0) }

  const COINBASE := Tx(31, 0, 1, [OutPoint(0, NULL_N)], [TxOut(0, [1])], 100, 0)
  const PAYMENT := Tx(32, 0, 0, [OutPoint(21, 0)], [TxOut(100, [1])], 100, 1)
  const STAKE := Tx(33, 0, 0, [OutPoint(22, 0)], [TxOut(0, []), TxOut(150, [1])], 100, 1)
  const BLOCK := Block(1, 0, 0, 0, [COINBASE, PAYMENT, STAKE])
  const PLACED := [Stored(COINBASE, Pos(5, 0, 1)), Stored(PAYMENT, Pos(5, 0, 2)), Stored(STAKE, Pos(5, 0, 3))]
  const DISK: Disk := map[Pos(4, 0, 1) := Paid(21), Pos(4, 0, 2) := Paid(22),
    Pos(5, 0, 1) := COINBASE, Pos(5, 0, 2) := PAYMENT, Pos(5, 0, 3) := STAKE]
  const BEFORE: Index := map[21 := TxIndex(Pos(4, 0, 1), [NullPos]), 22 := TxIndex(Pos(4, 0, 2), [NullPos])]
  const RULES := BlockRules(
    Rules((p, t, i) => true, p => false, t => 0, t => 0, (t, m) => 0), true, 0, None, a => 0)

  /** `tx` spends the 100 of transaction `id`. */
  lemma SpendsPaid(view: Index, tx: Tx, id: Hash, pos: DiskTxPos)
    requires !tx.IsCoinBase() && tx.vin == [OutPoint(id, 0)] && tx.nTime == 0 && tx.hash !in BEFORE
    requires id in view && view[id] == TxIndex(pos, [NullPos]) && pos in DISK && DISK[pos] == Paid(id)
    requires tx.IsCoinStake() || ValueOut(tx.vout) == 100
    ensures TxOk(RULES.tx, BEFORE, At(view, DISK, map[]), tx)
  {
    var src, o := At(view, DISK, map[]), OutPoint(id, 0);
    assert src.View() == view;
    assert src.Lookup(id) == Some(PrevTx(view[id], Paid(id)));
    assert tx.vin[0] == o && src.Fetchable(tx.vin[0]);
    var inputs := InputsAt(src, tx.vin);
    assert id in Hashes(tx.vin) && inputs[id] == PrevTx(view[id], Paid(id));
    assert tx.vin[..1] == tx.vin && tx.vin[..0] == [];
    assert InputSum(inputs, tx.vin) == 100;
    assert InputOk(RULES.tx, inputs, tx, 0);
    assert Unspent(Indices(inputs), o);
  }

  lemma PaidIs(view: Index, vin: seq<OutPoint>, id: Hash, pos: DiskTxPos)
    requires vin == [OutPoint(id, 0)]
    requires id in view && view[id] == TxIndex(pos, [NullPos]) && pos in DISK && DISK[pos] == Paid(id)
    ensures ValueIn(view, DISK, vin) == 100
  {
    assert vin[..0] == [];
  }

  /** An entry that a transaction neither spends from nor replaces stays. */
  lemma Untouched(view: Index, t: Stored, h: Hash)
    requires h in view && h != t.tx.hash && forall o :: o in t.tx.Spends() ==> o.hash != h
    ensures h in Connect(view, t) && Connect(view, t)[h] == view[h]
  {
    var after := MarkAll(view, t.tx.Spends(), t.pos);
    forall n | 0 <= n < |view[h].vSpent| ensures after[h].vSpent[n] == view[h].vSpent[n] {
      assert OutPoint(h, n) !in t.tx.Spends();
    }
    assert after[h].vSpent == view[h].vSpent;
  }

  lemma Views()
    ensures ConnectAll(BEFORE, PLACED[..1]) == Connect(BEFORE, PLACED[0])
    ensures ConnectAll(BEFORE, PLACED[..2]) == Connect(Connect(BEFORE, PLACED[0]), PLACED[1])
    ensures 22 in ConnectAll(BEFORE, PLACED[..2]) && ConnectAll(BEFORE, PLACED[..2])[22] == BEFORE[22]
    ensures 21 in ConnectAll(BEFORE, PLACED[..1]) && ConnectAll(BEFORE, PLACED[..1])[21] == BEFORE[21]
  {
    assert PLACED[..0] == [] && PLACED[..1][..0] == [] && PLACED[..2][..1] == PLACED[..1];
    Untouched(BEFORE, PLACED[0], 21);
    Untouched(BEFORE, PLACED[0], 22);
    Untouched(Connect(BEFORE, PLACED[0]), PLACED[1], 22);
  }

  lemma ListAccepted()
    ensures TxsOk(RULES.tx, BEFORE, DISK, map[], PLACED)
  {
    hide TxOk;
    Views();
    var a, b := ConnectAll(BEFORE, PLACED[..1]), ConnectAll(BEFORE, PLACED[..2]);
    SpendsPaid(a, PAYMENT, 21, Pos(4, 0, 1)) by { PaymentPays(); }
    SpendsPaid(b, STAKE, 22, Pos(4, 0, 2));
    assert TxOk(RULES.tx, BEFORE, At(BEFORE, DISK, map[]), COINBASE) by { CoinbaseFits(); }
    TxsOkNone(RULES.tx, BEFORE, DISK, map[]);
    assert PLACED[..0] == [];
    TxsOkStep(RULES.tx, BEFORE, DISK, map[], PLACED, 0);
    TxsOkStep(RULES.tx, BEFORE, DISK, map[], PLACED, 1);
    TxsOkStep(RULES.tx, BEFORE, DISK, map[], PLACED, 2);
    assert PLACED[..3] == PLACED;
  }

  lemma TxsOkNone(rules: Rules, txdb: Index, disk: Disk, pool: map<Hash, Tx>)
    ensures TxsOk(rules, txdb, disk, pool, []) && ConnectAll(txdb, []) == txdb
  {}

  lemma CoinbaseFits()
    ensures TxOk(RULES.tx, BEFORE, At(BEFORE, DISK, map[]), COINBASE)
  {}

  lemma PaymentPays()
    ensures ValueOut(PAYMENT.vout) == 100
  {
    ValueOutStep(PAYMENT.vout, 0);
    assert PAYMENT.vout[..1] == PAYMENT.vout && PAYMENT.vout[..0] == [];
  }

  lemma ListFits()
    ensures WellFormed(BEFORE, DISK) && GoodDisk(DISK) && OnDisk(DISK, PLACED) && Places(BLOCK, PLACED)
    ensures Accepted(RULES.tx, BEFORE, DISK, map[], PLACED)
  {
    hide TxsOk;
    ListAccepted();
  }

  lemma BlockChecked()
    ensures CheckBlock(RULES, BLOCK) && !BLOCK.IsProofOfStake() && ValueOut(BLOCK.vtx[0].vout) == 0
  {
    CoinbaseChecked();
    PaymentChecked();
    StakeChecked();
    assert LegacySigOps(RULES.tx, BLOCK.vtx) == 0 by { NoSigOps(BLOCK.vtx); }
  }

  lemma {:induction false} NoSigOps(vtx: seq<Tx>)
    ensures LegacySigOps(RULES.tx, vtx) == 0
  {
    if vtx != [] { NoSigOps(vtx[..|vtx| - 1]); }
  }

  lemma {:induction false} NoSigOpsPlaced(ts: seq<Stored>)
    ensures SigOps(RULES.tx, BEFORE, DISK, map[], ts) == 0
  {
    if ts != [] { NoSigOpsPlaced(ts[..|ts| - 1]); }
  }

  lemma CoinbaseChecked()
    ensures CheckTransaction(COINBASE) && ValueOut(COINBASE.vout) == 0
  {
    ValueOutStep(COINBASE.vout, 0);
    assert COINBASE.vout[..1] == COINBASE.vout && COINBASE.vout[..0] == [];
  }

  lemma PaymentChecked()
    ensures CheckTransaction(PAYMENT)
  {
    PaymentPays();
    assert PAYMENT.vout[..1] == PAYMENT.vout;
  }

  lemma StakeChecked()
    ensures CheckTransaction(STAKE) && ValueOut(STAKE.vout) == 150
  {
    var v := STAKE.vout;
    ValueOutStep(v, 0);
    ValueOutStep(v, 1);
    assert v[..2] == v && v[..0] == [];
  }

  lemma ValueOutStep(v: seq<TxOut>, k: nat)
    requires k < |v|
    ensures ValueOut(v[..k + 1]) == ValueOut(v[..k]) + v[k].nValue
  {
    assert v[..k + 1][..k] == v[..k];
  }

  lemma BlockAccepted()
    ensures BlockOk(RULES, BEFORE, DISK, map[], BLOCK, PLACED)
  {
    hide TxsOk, CheckBlock, SigOps, Fees;
    ListFits();
    ListAccepted();
    BlockChecked();
    NoSigOpsPlaced(PLACED);
    FeesAtLeast(RULES.tx, BEFORE, DISK, map[], PLACED);
  }

  lemma StakeMintsFifty()
    ensures StakeMints(BEFORE, DISK, PLACED) == 50
  {
    Views();
    var init := PLACED[..2];
    assert PLACED[..|PLACED| - 1] == init && init[..1] == PLACED[..1];
    NothingStaked(BEFORE, DISK, init);
    PaidIs(ConnectAll(BEFORE, init), STAKE.vin, 22, Pos(4, 0, 2));
    StakeChecked();
  }

  lemma FeesStep(txdb: Index, disk: Disk, ts: seq<Stored>, k: nat)
    requires k < |ts|
    ensures Fees(txdb, disk, ts[..k + 1]) == Fees(txdb, disk, ts[..k])
      + if Ordinary(ts[k].tx) then Surplus(ConnectAll(txdb, ts[..k]), disk, ts[k].tx) else 0
  {
    assert ts[..k + 1][..k] == ts[..k];
  }

  lemma NoFees()
    ensures Fees(BEFORE, DISK, PLACED) == 0
  {
    hide Surplus;
    Views();
    assert PLACED[..0] == [] && PLACED[..3] == PLACED;
    FeesStep(BEFORE, DISK, PLACED, 0);
    FeesStep(BEFORE, DISK, PLACED, 1);
    FeesStep(BEFORE, DISK, PLACED, 2);
    assert Surplus(ConnectAll(BEFORE, PLACED[..1]), DISK, PAYMENT) == 0 by { NoSurplus(); }
  }

  lemma NoSurplus()
    ensures Surplus(ConnectAll(BEFORE, PLACED[..1]), DISK, PAYMENT) == 0
  {
    Views();
    PaidIs(ConnectAll(BEFORE, PLACED[..1]), PAYMENT.vin, 21, Pos(4, 0, 1));
    PaymentPays();
  }

  /** A coinstake in third place of a proof-of-work block is bounded by nothing: BLOCK is accepted and
      creates 50 where the subsidy is 0. */
  lemma MoreThanSubsidy()
    ensures BlockOk(RULES, BEFORE, DISK, map[], BLOCK, PLACED) && !BLOCK.IsProofOfStake()
    ensures WellFormed(BEFORE, DISK) && WellFormed(ConnectAll(BEFORE, PLACED), DISK)
    ensures Total(ConnectAll(BEFORE, PLACED), DISK) == Total(BEFORE, DISK) + RULES.powSubsidy + 50
  {
    hide TxsOk, CheckBlock, Fees, StakeMints, BlockOk;
    ListFits();
    BlockAccepted();
    BlockChecked();
    StakeMintsFifty();
    NoFees();
    BlockRise(RULES, BEFORE, DISK, map[], BLOCK, PLACED);
  }
}
