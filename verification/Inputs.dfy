/** Fetching and connecting the inputs of one transaction
    (src/main.cpp: CTransaction::FetchInputs, GetValueIn, ConnectInputs, DisconnectInputs). */
module Inputs {
  import opened Basics
  import opened Transactions
  import opened Marks

  datatype PrevTx = PrevTx(txindex: TxIndex, tx: Tx)

  type PrevMap = map<Hash, PrevTx>

  /** Where inputs are looked up: the database, the changes queued on top of it (used
      for blocks and by the miner), the block files and the memory pool. */
  datatype Source = Source(txdb: Index, queue: Index, useQueue: bool, disk: Disk, pool: map<Hash, Tx>) {
    function View(): Index { if useQueue then txdb + queue else txdb }

    function Lookup(h: Hash): Option<PrevTx> {
      if h !in View() then
        if !useQueue && h in pool then Some(PrevTx(TxIndex(NullPos, Nulls(|pool[h].vout|)), pool[h])) else None
      else if View()[h].pos == MEMPOOL_POS then
        if h in pool then Some(PrevTx(View()[h], pool[h])) else None
      else
        if View()[h].pos in disk then Some(PrevTx(View()[h], disk[View()[h].pos])) else None
    }

    predicate Fetchable(o: OutPoint) {
      && Lookup(o.hash).Some?
      && o.n < |Lookup(o.hash).value.tx.vout|
      && o.n < |Lookup(o.hash).value.txindex.vSpent|
    }

    ghost predicate AllFetchable(vin: seq<OutPoint>) {
      forall i :: 0 <= i < |vin| ==> Fetchable(vin[i])
    }

    /** `inputs` holds what the source has for the hashes that `vin` refers to. */
    ghost predicate Fetched(vin: seq<OutPoint>, inputs: PrevMap) {
      && inputs.Keys == Hashes(vin)
      && forall h :: h in inputs ==> Lookup(h) == Some(inputs[h])
    }
  }

  function Hashes(vin: seq<OutPoint>): set<Hash> { set i | 0 <= i < |vin| :: vin[i].hash }

  lemma HashesSnoc(vin: seq<OutPoint>, i: nat)
    requires i < |vin|
    ensures Hashes(vin[..i + 1]) == Hashes(vin[..i]) + {vin[i].hash}
  {
    var a, b := Hashes(vin[..i]), Hashes(vin[..i + 1]);
    forall h | h in b ensures h in a + {vin[i].hash} {
      var k :| 0 <= k < i + 1 && vin[..i + 1][k].hash == h;
      if k < i { assert vin[..i][k].hash == h; }
    }
    forall h | h in a ensures h in b {
      var k :| 0 <= k < i && vin[..i][k].hash == h;
      assert vin[..i + 1][k].hash == h;
    }
    assert vin[..i + 1][i].hash in b;
  }

  method FetchInputs(src: Source, tx: Tx) returns (ok: bool, inputs: PrevMap)
    ensures ok <==> src.AllFetchable(tx.Spends())
    ensures ok ==> src.Fetched(tx.Spends(), inputs)
  {
    inputs := map[];
    if tx.IsCoinBase() {
      return true, inputs;
    }
    for i := 0 to |tx.vin|
      invariant src.Fetched(tx.vin[..i], inputs)
    {
      HashesSnoc(tx.vin, i);
      var h := tx.vin[i].hash;
      if h in inputs {
        continue;
      }
      if h !in src.View() && src.useQueue {
        assert !src.Fetchable(tx.vin[i]);
        return false, inputs;
      }
      if h !in src.View() || src.View()[h].pos == MEMPOOL_POS {
        if h !in src.pool {
          assert !src.Fetchable(tx.vin[i]);
          return false, inputs;
        }
        var entry := if h in src.View() then src.View()[h] else TxIndex(NullPos, Nulls(|src.pool[h].vout|));
        inputs := inputs[h := PrevTx(entry, src.pool[h])];
      } else {
        if src.View()[h].pos !in src.disk {
          assert !src.Fetchable(tx.vin[i]);
          return false, inputs;
        }
        inputs := inputs[h := PrevTx(src.View()[h], src.disk[src.View()[h].pos])];
      }
    }
    assert tx.vin[..|tx.vin|] == tx.vin;
    for i := 0 to |tx.vin|
      invariant forall k :: 0 <= k < i ==> src.Fetchable(tx.vin[k])
    {
      var o := tx.vin[i];
      assert o.hash in Hashes(tx.vin);
      if o.n >= |inputs[o.hash].tx.vout| || o.n >= |inputs[o.hash].txindex.vSpent| {
        assert !src.Fetchable(tx.vin[i]);
        return false, inputs;
      }
    }
    ok := true;
  }

  // ---------------------------------------------------------------- connecting

  /** Checks whose content lies outside the index: signatures, maturity, fees. */
  datatype Rules = Rules(
    signed: (Tx, Tx, nat) -> bool,      // VerifySignature(txPrev, tx, i), or skipped
    immature: DiskTxPos -> bool,        // stored in one of the last nCoinbaseMaturity blocks
    minFee: Tx -> int,                  // GetMinFee()
    sigOps: Tx -> nat,                  // GetLegacySigOpCount()
    p2shSigOps: (Tx, PrevMap) -> nat    // GetP2SHSigOpCount(mapInputs)
  )

  function InputSum(inputs: PrevMap, vin: seq<OutPoint>): int {
    if vin == [] then 0
    else
      var o := vin[|vin| - 1];
      InputSum(inputs, vin[..|vin| - 1])
      + if o.hash in inputs && o.n < |inputs[o.hash].tx.vout| then inputs[o.hash].tx.vout[o.n].nValue else 0
  }

  function Indices(inputs: PrevMap): Index { map h | h in inputs :: inputs[h].txindex }

  /** The inexpensive checks on input `i`. */
  predicate InputOk(rules: Rules, inputs: PrevMap, tx: Tx, i: nat)
    requires i < |tx.vin|
  {
    var o := tx.vin[i];
    && o.hash in inputs
    && o.n < |inputs[o.hash].tx.vout|
    && o.n < |inputs[o.hash].txindex.vSpent|
    && (inputs[o.hash].tx.IsCoinBase() || inputs[o.hash].tx.IsCoinStake()
        ==> !rules.immature(inputs[o.hash].txindex.pos))
    && inputs[o.hash].tx.nTime <= tx.nTime
    && MoneyRange(inputs[o.hash].tx.vout[o.n].nValue)
    && MoneyRange(InputSum(inputs, tx.vin[..i + 1]))
  }

  predicate FeeOk(rules: Rules, inputs: PrevMap, tx: Tx) {
    var fee := InputSum(inputs, tx.vin) - ValueOut(tx.vout);
    tx.IsCoinStake() || (fee >= 0 && fee >= rules.minFee(tx) && MoneyRange(fee))
  }

  predicate Signed(rules: Rules, inputs: PrevMap, tx: Tx, i: nat)
    requires i < |tx.vin|
  {
    tx.vin[i].hash in inputs && rules.signed(inputs[tx.vin[i].hash].tx, tx, i)
  }

  /** Everything ConnectInputs asks for, for a transaction that is not a coinbase. */
  ghost predicate InputsOk(rules: Rules, inputs: PrevMap, tx: Tx) {
    && (forall i :: 0 <= i < |tx.vin| ==> InputOk(rules, inputs, tx, i))
    && Spendable(Indices(inputs), tx)
    && (forall i :: 0 <= i < |tx.vin| ==> Signed(rules, inputs, tx, i))
    && FeeOk(rules, inputs, tx)
  }

  /** First loop of ConnectInputs. */
  method CheckInputs(rules: Rules, inputs: PrevMap, tx: Tx) returns (ok: bool, nValueIn: int)
    requires inputs.Keys == Hashes(tx.vin)
    ensures ok <==> forall i :: 0 <= i < |tx.vin| ==> InputOk(rules, inputs, tx, i)
    ensures ok ==> nValueIn == InputSum(inputs, tx.vin)
  {
    nValueIn := 0;
    for i := 0 to |tx.vin|
      invariant nValueIn == InputSum(inputs, tx.vin[..i])
      invariant forall k :: 0 <= k < i ==> InputOk(rules, inputs, tx, k)
    {
      var o := tx.vin[i];
      assert o.hash in Hashes(tx.vin);
      assert tx.vin[..i + 1][..i] == tx.vin[..i];
      var prev := inputs[o.hash];
      if o.n >= |prev.tx.vout| || o.n >= |prev.txindex.vSpent| {
        assert !InputOk(rules, inputs, tx, i);
        return false, nValueIn;
      }
      if (prev.tx.IsCoinBase() || prev.tx.IsCoinStake()) && rules.immature(prev.txindex.pos) {
        assert !InputOk(rules, inputs, tx, i);
        return false, nValueIn;
      }
      if prev.tx.nTime > tx.nTime {
        assert !InputOk(rules, inputs, tx, i);
        return false, nValueIn;
      }
      nValueIn := nValueIn + prev.tx.vout[o.n].nValue;
      if !MoneyRange(prev.tx.vout[o.n].nValue) || !MoneyRange(nValueIn) {
        assert !InputOk(rules, inputs, tx, i);
        return false, nValueIn;
      }
    }
    assert tx.vin[..|tx.vin|] == tx.vin;
    ok := true;
  }

  ghost predicate AllInRange(idx: Index, vin: seq<OutPoint>) { forall o :: o in vin ==> InRange(idx, o) }

  /** The fetched entries after the first `i` marking steps. */
  function MarkUpTo(idx: Index, vin: seq<OutPoint>, i: nat, pos: DiskTxPos): Index
    requires i <= |vin|
  {
    if i == 0 then idx
    else
      var before := MarkUpTo(idx, vin, i - 1, pos);
      if InRange(before, vin[i - 1]) then Mark(before, vin[i - 1], pos) else before
  }

  /** The queue after the first `i` write-backs. */
  function QueueUpTo(queue: Index, idx: Index, vin: seq<OutPoint>, i: nat, pos: DiskTxPos): Index
    requires i <= |vin|
  {
    if i == 0 then queue
    else
      var before, cur, h := QueueUpTo(queue, idx, vin, i - 1, pos), MarkUpTo(idx, vin, i, pos), vin[i - 1].hash;
      if h in cur then before[h := cur[h]] else before
  }

  lemma {:induction false} MarkUpToIsMarkAll(idx: Index, vin: seq<OutPoint>, i: nat, pos: DiskTxPos)
    requires i <= |vin| && AllInRange(idx, vin)
    ensures MarkUpTo(idx, vin, i, pos) == MarkAll(idx, vin[..i], pos)
  {
    if i == 0 {
      MarkAllNone(idx, pos);
    } else {
      MarkUpToIsMarkAll(idx, vin, i - 1, pos);
      assert InRange(idx, vin[i - 1]);
      MarkAllStep(idx, vin, i - 1, pos);
    }
  }

  lemma {:induction false} MarkUpToKeys(idx: Index, vin: seq<OutPoint>, i: nat, pos: DiskTxPos)
    requires i <= |vin|
    ensures MarkUpTo(idx, vin, i, pos).Keys == idx.Keys
  {
    if i > 0 { MarkUpToKeys(idx, vin, i - 1, pos); }
  }

  lemma {:induction false} QueueUpToAt(queue: Index, idx: Index, vin: seq<OutPoint>, i: nat, pos: DiskTxPos, h: Hash)
    requires i <= |vin| && Hashes(vin) <= idx.Keys
    ensures var q, written := QueueUpTo(queue, idx, vin, i, pos), Hashes(vin[..i]);
      && (h in q <==> h in queue || h in written)
      && (h in written ==> h in MarkUpTo(idx, vin, i, pos) && q[h] == MarkUpTo(idx, vin, i, pos)[h])
      && (h in queue && h !in written ==> q[h] == queue[h])
  {
    MarkUpToKeys(idx, vin, i, pos);
    if i > 0 {
      assert vin[i - 1].hash in Hashes(vin);
      HashesSnoc(vin, i - 1);
      MarkUpToKeys(idx, vin, i - 1, pos);
      QueueUpToAt(queue, idx, vin, i - 1, pos, h);
    }
  }

  /** Writing back after every mark leaves the queue overlaid with all the marks. */
  lemma QueueWritten(queue: Index, idx: Index, vin: seq<OutPoint>, pos: DiskTxPos)
    requires idx.Keys == Hashes(vin) && AllInRange(idx, vin)
    ensures QueueUpTo(queue, idx, vin, |vin|, pos) == queue + MarkAll(idx, vin, pos)
  {
    assert vin[..|vin|] == vin;
    MarkUpToIsMarkAll(idx, vin, |vin|, pos);
    var l, r := QueueUpTo(queue, idx, vin, |vin|, pos), queue + MarkAll(idx, vin, pos);
    forall h ensures (h in l <==> h in r) && (h in l ==> l[h] == r[h]) {
      QueueUpToAt(queue, idx, vin, |vin|, pos, h);
    }
  }

  /** At every step of the loop the mark is null exactly if all outputs were unspent
      before the transaction and no output is named twice. */
  lemma FreeAtEveryStep(idx: Index, vin: seq<OutPoint>, pos: DiskTxPos)
    requires AllInRange(idx, vin) && pos != NullPos
    ensures (forall i :: 0 <= i < |vin| ==> Unspent(MarkUpTo(idx, vin, i, pos), vin[i]))
       <==> (Distinct(vin) && forall o :: o in vin ==> Unspent(idx, o))
  {
    forall i | 0 <= i < |vin|
      ensures Unspent(MarkUpTo(idx, vin, i, pos), vin[i]) <==> Unspent(idx, vin[i]) && vin[i] !in vin[..i]
    {
      MarkUpToIsMarkAll(idx, vin, i, pos);
      assert InRange(idx, vin[i]) && vin[i] == OutPoint(vin[i].hash, vin[i].n);
    }
    if forall i :: 0 <= i < |vin| ==> Unspent(MarkUpTo(idx, vin, i, pos), vin[i]) {
      forall i, j | 0 <= i < j < |vin| ensures vin[i] != vin[j] {
        assert Unspent(MarkUpTo(idx, vin, j, pos), vin[j]) && vin[..j][i] == vin[i];
      }
    }
  }

  /** Step `i` of the marking loop does not fail. */
  ghost predicate TakesOver(rules: Rules, inputs: PrevMap, tx: Tx, i: nat, pos: DiskTxPos)
    requires i < |tx.vin|
  {
    && Unspent(MarkUpTo(Indices(inputs), tx.vin, i, pos), tx.vin[i])
    && Signed(rules, inputs, tx, i)
  }

  /** Second loop of ConnectInputs: mark the outpoints as spent and write back. */
  method TakeOver(rules: Rules, inputs: PrevMap, queue0: Index, tx: Tx, pos: DiskTxPos, write: bool)
    returns (ok: bool, queue: Index)
    requires inputs.Keys == Hashes(tx.vin) && AllInRange(Indices(inputs), tx.vin) && pos != NullPos
    ensures ok <==> forall i :: 0 <= i < |tx.vin| ==> TakesOver(rules, inputs, tx, i, pos)
    ensures ok ==> queue == if write then QueueUpTo(queue0, Indices(inputs), tx.vin, |tx.vin|, pos) else queue0
  {
    queue := queue0;
    var cur := Indices(inputs);   // the index halves of the private copy of the inputs
    ghost var idx := cur;
    for i := 0 to |tx.vin|
      invariant forall k :: 0 <= k < i ==> TakesOver(rules, inputs, tx, k, pos)
      invariant cur == MarkUpTo(idx, tx.vin, i, pos)
      invariant queue == if write then QueueUpTo(queue0, idx, tx.vin, i, pos) else queue0
    {
      var o := tx.vin[i];
      assert InRange(cur, o) by {
        MarkUpToIsMarkAll(idx, tx.vin, i, pos);
        assert InRange(idx, o);
      }
      if cur[o.hash].vSpent[o.n] != NullPos {
        assert !TakesOver(rules, inputs, tx, i, pos);
        return false, queue;
      }
      if !Signed(rules, inputs, tx, i) {
        assert !TakesOver(rules, inputs, tx, i, pos);
        return false, queue;
      }
      cur := Mark(cur, o, pos);
      if write {
        queue := queue[o.hash := cur[o.hash]];
      }
    }
    ok := true;
  }

  lemma TakeOverMeans(rules: Rules, inputs: PrevMap, tx: Tx, pos: DiskTxPos)
    requires pos != NullPos && !tx.IsCoinBase()
    requires forall i :: 0 <= i < |tx.vin| ==> InputOk(rules, inputs, tx, i)
    ensures AllInRange(Indices(inputs), tx.vin)
    ensures (forall i :: 0 <= i < |tx.vin| ==> TakesOver(rules, inputs, tx, i, pos))
       <==> Spendable(Indices(inputs), tx) && forall i :: 0 <= i < |tx.vin| ==> Signed(rules, inputs, tx, i)
  {
    var idx, vin := Indices(inputs), tx.vin;
    forall o | o in vin ensures InRange(idx, o) {
      var i :| 0 <= i < |vin| && vin[i] == o;
      assert InputOk(rules, inputs, tx, i);
    }
    FreeAtEveryStep(idx, vin, pos);
    if forall i :: 0 <= i < |vin| ==> TakesOver(rules, inputs, tx, i, pos) {
      forall i | 0 <= i < |vin| ensures Signed(rules, inputs, tx, i) && Unspent(MarkUpTo(idx, vin, i, pos), vin[i]) {
        assert TakesOver(rules, inputs, tx, i, pos);
      }
    }
  }

  method ConnectInputs(rules: Rules, inputs: PrevMap, queue0: Index, tx: Tx, pos: DiskTxPos, write: bool)
    returns (ok: bool, queue: Index)
    requires inputs.Keys == Hashes(tx.Spends()) && pos != NullPos
    ensures ok <==> tx.IsCoinBase() || InputsOk(rules, inputs, tx)
    ensures ok && !tx.IsCoinBase() && !tx.IsCoinStake() ==>
      && ValueOut(tx.vout) <= InputSum(inputs, tx.vin)
      && ValueOut(tx.vout) + rules.minFee(tx) <= InputSum(inputs, tx.vin)
    ensures ok ==> queue == if write then queue0 + MarkAll(Indices(inputs), tx.Spends(), pos) else queue0
  {
    queue := queue0;
    if tx.IsCoinBase() {
      return true, queue;
    }
    assert tx.vin[..|tx.vin|] == tx.vin;
    var nValueIn;
    ok, nValueIn := CheckInputs(rules, inputs, tx);
    if !ok {
      return;
    }
    TakeOverMeans(rules, inputs, tx, pos);
    QueueWritten(queue0, Indices(inputs), tx.vin, pos);
    ok, queue := TakeOver(rules, inputs, queue0, tx, pos, write);
    if !ok {
      return;
    }
    if !tx.IsCoinStake() {
      if nValueIn < ValueOut(tx.vout) {
        return false, queue;
      }
      var nTxFee := nValueIn - ValueOut(tx.vout);
      if nTxFee < rules.minFee(tx) {
        return false, queue;
      }
      if !MoneyRange(nTxFee) {
        return false, queue;
      }
    }
    ok := true;
  }

  // ---------------------------------------------------------------- disconnecting

  method DisconnectInputs(txdb0: Index, tx: Tx) returns (ok: bool, txdb: Index)
    ensures ok <==> forall o :: o in tx.Spends() ==> InRange(txdb0, o)
    ensures ok ==> txdb == Disconnect(txdb0, tx)
  {
    txdb := txdb0;
    var vin := tx.Spends();
    MarkAllNone(txdb, NullPos);
    if !tx.IsCoinBase() {
      for i := 0 to |vin|
        invariant forall o :: o in vin[..i] ==> InRange(txdb0, o)
        invariant txdb == MarkAll(txdb0, vin[..i], NullPos)
      {
        var o := vin[i];
        if o.hash !in txdb || o.n >= |txdb[o.hash].vSpent| {
          assert !InRange(txdb0, o);
          return false, txdb;
        }
        MarkAllStep(txdb0, vin, i, NullPos);
        txdb := txdb[o.hash := TxIndex(txdb[o.hash].pos, txdb[o.hash].vSpent[o.n := NullPos])];
      }
    }
    assert vin[..|vin|] == vin;
    txdb := txdb - {tx.hash};
    ok := true;
  }
}
