/** The declarative side of the transaction index: what marking outpoints as
    spent means, how connecting and disconnecting a transaction change the
    index, and the total value of the unspent outputs. */
module Marks {
  import opened Basics
  import opened Transactions

  /** Put mark `p` on every output that `vin` names and the index knows. */
  function MarkAll(idx: Index, vin: seq<OutPoint>, p: DiskTxPos): Index {
    map h | h in idx :: TxIndex(idx[h].pos, MarkSeq(h, idx[h].vSpent, vin, p))
  }

  function MarkSeq(h: Hash, marks: seq<DiskTxPos>, vin: seq<OutPoint>, p: DiskTxPos): seq<DiskTxPos> {
    seq(|marks|, n requires 0 <= n < |marks| => if OutPoint(h, n) in vin then p else marks[n])
  }

  predicate InRange(idx: Index, o: OutPoint) {
    o.hash in idx && o.n < |idx[o.hash].vSpent|
  }

  predicate Unspent(idx: Index, o: OutPoint) {
    InRange(idx, o) && idx[o.hash].vSpent[o.n] == NullPos
  }

  /** One step of the marking loops: overwrite a single mark. */
  function Mark(idx: Index, o: OutPoint, p: DiskTxPos): Index
    requires InRange(idx, o)
  {
    idx[o.hash := TxIndex(idx[o.hash].pos, idx[o.hash].vSpent[o.n := p])]
  }

  lemma MarkAllNone(idx: Index, p: DiskTxPos)
    ensures MarkAll(idx, [], p) == idx
  {
    var r := MarkAll(idx, [], p);
    forall h | h in idx ensures r[h] == idx[h] {
      assert r[h].vSpent == idx[h].vSpent;
    }
  }

  /** Marking one more outpoint extends the marked set by it. */
  lemma MarkAllStep(idx: Index, vin: seq<OutPoint>, i: nat, p: DiskTxPos)
    requires i < |vin|
    requires InRange(idx, vin[i])
    ensures Mark(MarkAll(idx, vin[..i], p), vin[i], p) == MarkAll(idx, vin[..i + 1], p)
  {
    var l, r := Mark(MarkAll(idx, vin[..i], p), vin[i], p), MarkAll(idx, vin[..i + 1], p);
    assert vin[..i + 1] == vin[..i] + [vin[i]];
    forall h | h in idx ensures l[h] == r[h] {
      forall n | 0 <= n < |idx[h].vSpent| ensures l[h].vSpent[n] == r[h].vSpent[n] {
        assert OutPoint(h, n) in vin[..i + 1] <==> OutPoint(h, n) in vin[..i] || OutPoint(h, n) == vin[i];
      }
      assert l[h].vSpent == r[h].vSpent;
    }
    assert l.Keys == idx.Keys == r.Keys;
  }

  /** Clearing the marks of outpoints that were unspent before restores the index. */
  lemma UnmarkMarked(idx: Index, vin: seq<OutPoint>, p: DiskTxPos)
    requires forall o :: o in vin ==> Unspent(idx, o)
    ensures MarkAll(MarkAll(idx, vin, p), vin, NullPos) == idx
  {
    var r := MarkAll(MarkAll(idx, vin, p), vin, NullPos);
    forall h | h in idx ensures r[h] == idx[h] {
      forall n | 0 <= n < |idx[h].vSpent| ensures r[h].vSpent[n] == idx[h].vSpent[n] {
        assert OutPoint(h, n) in vin ==> Unspent(idx, OutPoint(h, n));
      }
      assert r[h].vSpent == idx[h].vSpent;
    }
    assert r.Keys == idx.Keys;
  }

  // ---------------------------------------------------------------- transactions

  function Connect(idx: Index, t: Stored): Index {
    MarkAll(idx, t.tx.Spends(), t.pos)[t.tx.hash := TxIndex(t.pos, Nulls(|t.tx.vout|))]
  }

  function Disconnect(idx: Index, tx: Tx): Index {
    MarkAll(idx, tx.Spends(), NullPos) - {tx.hash}
  }

  function ConnectAll(idx: Index, ts: seq<Stored>): Index {
    if ts == [] then idx else Connect(ConnectAll(idx, ts[..|ts| - 1]), ts[|ts| - 1])
  }

  /** DisconnectBlock goes through the transactions in reverse order. */
  function DisconnectAll(idx: Index, ts: seq<Stored>): Index {
    if ts == [] then idx else DisconnectAll(Disconnect(idx, ts[|ts| - 1].tx), ts[..|ts| - 1])
  }

  /** Every input is an unspent output of an indexed transaction, no input twice. */
  predicate Spendable(idx: Index, tx: Tx) {
    && Distinct(tx.Spends())
    && forall o :: o in tx.Spends() ==> Unspent(idx, o)
  }

  predicate FullySpent(e: TxIndex) {
    forall n :: 0 <= n < |e.vSpent| ==> e.vSpent[n] != NullPos
  }

  /** The overwrite rule of ConnectBlock: a known id only if completely spent. */
  predicate MayAdd(idx: Index, h: Hash) { h in idx ==> FullySpent(idx[h]) }

  /** Every transaction in turn spends outputs that are there and unspent, and none
      replaces an entry that still has an unspent output. */
  ghost predicate Connectable(idx: Index, ts: seq<Stored>) {
    ts == [] || (Connectable(idx, ts[..|ts| - 1]) && StepOk(ConnectAll(idx, ts[..|ts| - 1]), ts[|ts| - 1]))
  }

  ghost predicate StepOk(idx: Index, t: Stored) {
    t.pos != NullPos && Spendable(idx, t.tx) && MayAdd(idx, t.tx.hash)
  }

  ghost predicate Fresh(idx: Index, ts: seq<Stored>) {
    forall k :: 0 <= k < |ts| ==> ts[k].tx.hash !in idx
  }

  predicate DistinctIds(ts: seq<Stored>) {
    forall i, j :: 0 <= i < j < |ts| ==> ts[i].tx.hash != ts[j].tx.hash
  }

  lemma ConnectUndo(idx: Index, t: Stored)
    requires StepOk(idx, t) && t.tx.hash !in idx
    ensures Disconnect(Connect(idx, t), t.tx) == idx
  {
    var vin := t.tx.Spends();
    var marked := MarkAll(idx, vin, t.pos);
    var added := Connect(idx, t);
    UnmarkMarked(idx, vin, t.pos);
    var l := Disconnect(added, t.tx);
    forall h | h in idx ensures h in l && l[h] == idx[h] {
      assert added[h] == marked[h];
      assert l[h] == MarkAll(marked, vin, NullPos)[h];
    }
    assert l.Keys == idx.Keys;
  }

  ghost function Ids(ts: seq<Stored>): set<Hash> {
    set k | 0 <= k < |ts| :: ts[k].tx.hash
  }

  lemma IdsSnoc(ts: seq<Stored>)
    requires ts != []
    ensures Ids(ts) == Ids(ts[..|ts| - 1]) + {ts[|ts| - 1].tx.hash}
  {
    var init := ts[..|ts| - 1];
    forall h | h in Ids(ts) ensures h in Ids(init) + {ts[|ts| - 1].tx.hash} {
      var k :| 0 <= k < |ts| && ts[k].tx.hash == h;
      if k < |init| { assert init[k].tx.hash == h; }
    }
    forall h | h in Ids(init) ensures h in Ids(ts) {
      var k :| 0 <= k < |init| && init[k].tx.hash == h;
      assert ts[k].tx.hash == h;
    }
  }

  lemma {:induction false} ConnectAllKeys(idx: Index, ts: seq<Stored>)
    ensures ConnectAll(idx, ts).Keys == idx.Keys + Ids(ts)
  {
    if ts != [] {
      IdsSnoc(ts);
      ConnectAllKeys(idx, ts[..|ts| - 1]);
    }
  }

  lemma {:induction false} ConnectableAt(idx: Index, ts: seq<Stored>, k: nat)
    requires Connectable(idx, ts) && k < |ts|
    ensures StepOk(ConnectAll(idx, ts[..k]), ts[k])
    decreases |ts|
  {
    if k < |ts| - 1 {
      var init := ts[..|ts| - 1];
      ConnectableAt(idx, init, k);
      assert init[..k] == ts[..k];
    }
  }

  /** Disconnecting a block undoes connecting it, spends inside the block included. */
  lemma {:induction false} ConnectAllUndo(idx: Index, ts: seq<Stored>)
    requires Connectable(idx, ts) && DistinctIds(ts) && Fresh(idx, ts)
    ensures DisconnectAll(ConnectAll(idx, ts), ts) == idx
  {
    if ts != [] {
      var init, t := ts[..|ts| - 1], ts[|ts| - 1];
      var before := ConnectAll(idx, init);
      assert t.tx.hash !in before by { ConnectAllKeys(idx, init); }
      ConnectUndo(before, t);
      ConnectAllUndo(idx, init);
    }
  }

  lemma {:induction false} DisconnectAllKeys(idx: Index, ts: seq<Stored>)
    ensures DisconnectAll(idx, ts).Keys == idx.Keys - Ids(ts)
  {
    if ts != [] {
      IdsSnoc(ts);
      var t := ts[|ts| - 1].tx;
      DisconnectAllKeys(Disconnect(idx, t), ts[..|ts| - 1]);
      assert Disconnect(idx, t).Keys == idx.Keys - {t.hash};
    }
  }

  /** Exactly when: connecting is undone by disconnecting if and only if the block
      replaced no index entry. */
  lemma UndoIffFresh(idx: Index, ts: seq<Stored>)
    requires Connectable(idx, ts) && DistinctIds(ts)
    ensures DisconnectAll(ConnectAll(idx, ts), ts) == idx <==> Fresh(idx, ts)
  {
    if Fresh(idx, ts) {
      ConnectAllUndo(idx, ts);
    } else {
      var k :| 0 <= k < |ts| && ts[k].tx.hash in idx;
      DisconnectAllKeys(ConnectAll(idx, ts), ts);
      assert ts[k].tx.hash in Ids(ts);
    }
  }
}
