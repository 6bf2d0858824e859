/** The money supply: the total value of all unspent outputs in the index, and how
    connecting transactions changes it. */
module Supply {
  import opened Basics
  import opened Transactions
  import opened Marks

  ghost function UnspentIn(marks: seq<DiskTxPos>, vout: seq<TxOut>): int
    requires |marks| == |vout|
  {
    if vout == [] then 0
    else
      var last := |vout| - 1;
      UnspentIn(marks[..last], vout[..last]) + if marks[last] == NullPos then vout[last].nValue else 0
  }

  ghost predicate EntryOk(e: TxIndex, disk: Disk) {
    e.pos in disk && |e.vSpent| == |disk[e.pos].vout|
  }

  ghost function Worth(e: TxIndex, disk: Disk): int
    requires EntryOk(e, disk)
  {
    UnspentIn(e.vSpent, disk[e.pos].vout)
  }

  /** Total value of the unspent outputs of all indexed transactions. */
  ghost function Total(idx: Index, disk: Disk): int
    requires WellFormed(idx, disk)
    decreases |idx|
  {
    if idx == map[] then 0
    else
      var h :| h in idx;
      Worth(idx[h], disk) + Total(idx - {h}, disk)
  }

  /** Value of an indexed output; an unknown outpoint is worth nothing. */
  ghost function OutputValue(idx: Index, disk: Disk, o: OutPoint): int {
    if o.hash in idx && idx[o.hash].pos in disk && o.n < |disk[idx[o.hash].pos].vout|
    then disk[idx[o.hash].pos].vout[o.n].nValue
    else 0
  }

  ghost function ValueIn(idx: Index, disk: Disk, vin: seq<OutPoint>): int {
    if vin == [] then 0
    else ValueIn(idx, disk, vin[..|vin| - 1]) + OutputValue(idx, disk, vin[|vin| - 1])
  }

  lemma {:induction false} TotalSplit(idx: Index, disk: Disk, h: Hash)
    requires WellFormed(idx, disk) && h in idx
    ensures Total(idx, disk) == Worth(idx[h], disk) + Total(idx - {h}, disk)
    decreases |idx|
  {
    var g :| g in idx && Total(idx, disk) == Worth(idx[g], disk) + Total(idx - {g}, disk);
    if g != h {
      TotalSplit(idx - {g}, disk, h);
      TotalSplit(idx - {h}, disk, g);
      assert idx - {g} - {h} == idx - {h} - {g};
    }
  }

  /** Replacing (or adding) one entry changes the total by what the entries are worth. */
  lemma TotalUpdate(idx: Index, disk: Disk, h: Hash, e: TxIndex)
    requires WellFormed(idx, disk) && EntryOk(e, disk) && disk[e.pos].hash == h
    ensures WellFormed(idx[h := e], disk)
    ensures Total(idx[h := e], disk)
         == Total(idx, disk) + Worth(e, disk) - if h in idx then Worth(idx[h], disk) else 0
  {
    var upd := idx[h := e];
    TotalSplit(upd, disk, h);
    if h in idx {
      TotalSplit(idx, disk, h);
      assert upd - {h} == idx - {h};
    } else {
      assert upd - {h} == idx;
    }
  }

  lemma {:induction false} UnspentInSet(marks: seq<DiskTxPos>, vout: seq<TxOut>, n: nat, p: DiskTxPos)
    requires |marks| == |vout| && n < |marks| && marks[n] == NullPos && p != NullPos
    ensures UnspentIn(marks[n := p], vout) == UnspentIn(marks, vout) - vout[n].nValue
  {
    var last := |vout| - 1;
    if n == last {
      assert marks[n := p][..last] == marks[..last];
    } else {
      assert marks[n := p][..last] == marks[..last][n := p];
      UnspentInSet(marks[..last], vout[..last], n, p);
    }
  }

  lemma {:induction false} UnspentInNulls(vout: seq<TxOut>)
    ensures UnspentIn(Nulls(|vout|), vout) == ValueOut(vout)
  {
    if vout != [] {
      var last := |vout| - 1;
      assert Nulls(|vout|)[..last] == Nulls(last);
      UnspentInNulls(vout[..last]);
    }
  }

  lemma {:induction false} FullySpentIsWorthless(marks: seq<DiskTxPos>, vout: seq<TxOut>)
    requires |marks| == |vout| && forall n :: 0 <= n < |marks| ==> marks[n] != NullPos
    ensures UnspentIn(marks, vout) == 0
  {
    if vout != [] {
      FullySpentIsWorthless(marks[..|vout| - 1], vout[..|vout| - 1]);
    }
  }

  lemma TotalMark(idx: Index, disk: Disk, o: OutPoint, p: DiskTxPos)
    requires WellFormed(idx, disk) && Unspent(idx, o) && p != NullPos
    ensures WellFormed(Mark(idx, o, p), disk)
    ensures Total(Mark(idx, o, p), disk) == Total(idx, disk) - OutputValue(idx, disk, o)
  {
    var e := TxIndex(idx[o.hash].pos, idx[o.hash].vSpent[o.n := p]);
    TotalUpdate(idx, disk, o.hash, e);
    UnspentInSet(idx[o.hash].vSpent, disk[e.pos].vout, o.n, p);
  }

  /** Spending distinct unspent outputs lowers the total by exactly their value. */
  lemma {:induction false} TotalMarkAll(idx: Index, disk: Disk, vin: seq<OutPoint>, p: DiskTxPos)
    requires WellFormed(idx, disk) && p != NullPos && Distinct(vin)
    requires forall o :: o in vin ==> Unspent(idx, o)
    ensures WellFormed(MarkAll(idx, vin, p), disk)
    ensures Total(MarkAll(idx, vin, p), disk) == Total(idx, disk) - ValueIn(idx, disk, vin)
  {
    if vin == [] {
      MarkAllNone(idx, p);
    } else {
      var last := |vin| - 1;
      var o := vin[last];
      TotalMarkAll(idx, disk, vin[..last], p);
      assert vin[..last + 1] == vin;
      assert Unspent(idx, o);
      MarkAllStep(idx, vin, last, p);
      var mid := MarkAll(idx, vin[..last], p);
      assert OutPoint(o.hash, o.n) == o && o !in vin[..last];
      assert Unspent(mid, o);
      TotalMark(mid, disk, o, p);
    }
  }

  /** Connecting a transaction destroys the value of its inputs and creates the value
      of its outputs, also when it replaces a completely spent entry. */
  lemma TotalConnect(idx: Index, disk: Disk, t: Stored)
    requires WellFormed(idx, disk) && StepOk(idx, t)
    requires t.pos in disk && disk[t.pos] == t.tx
    ensures WellFormed(Connect(idx, t), disk)
    ensures Total(Connect(idx, t), disk)
         == Total(idx, disk) - ValueIn(idx, disk, t.tx.Spends()) + ValueOut(t.tx.vout)
  {
    var vin, h := t.tx.Spends(), t.tx.hash;
    var marked := MarkAll(idx, vin, t.pos);
    TotalMarkAll(idx, disk, vin, t.pos);
    var e := TxIndex(t.pos, Nulls(|t.tx.vout|));
    TotalUpdate(marked, disk, h, e);
    UnspentInNulls(t.tx.vout);
    if h in idx {
      forall n | 0 <= n < |marked[h].vSpent| ensures marked[h].vSpent[n] != NullPos {
        assert idx[h].vSpent[n] != NullPos;
      }
      FullySpentIsWorthless(marked[h].vSpent, disk[marked[h].pos].vout);
    }
  }

  // ---------------------------------------------------------------- blocks

  ghost predicate OnDisk(disk: Disk, ts: seq<Stored>) {
    forall k :: 0 <= k < |ts| ==> ts[k].pos in disk && disk[ts[k].pos] == ts[k].tx
  }

  ghost function BlockValueOut(ts: seq<Stored>): int {
    if ts == [] then 0 else BlockValueOut(ts[..|ts| - 1]) + ValueOut(ts[|ts| - 1].tx.vout)
  }

  /** Value taken by the inputs of the block, each looked up when it is spent. */
  ghost function BlockValueIn(idx: Index, disk: Disk, ts: seq<Stored>): int {
    if ts == [] then 0
    else
      var init, t := ts[..|ts| - 1], ts[|ts| - 1];
      BlockValueIn(idx, disk, init) + ValueIn(ConnectAll(idx, init), disk, t.tx.Spends())
  }

  /** Conservation for a whole block. */
  lemma {:induction false} TotalConnectAll(idx: Index, disk: Disk, ts: seq<Stored>)
    requires WellFormed(idx, disk) && Connectable(idx, ts) && OnDisk(disk, ts)
    ensures WellFormed(ConnectAll(idx, ts), disk)
    ensures Total(ConnectAll(idx, ts), disk)
         == Total(idx, disk) + BlockValueOut(ts) - BlockValueIn(idx, disk, ts)
  {
    if ts != [] {
      var init, t := ts[..|ts| - 1], ts[|ts| - 1];
      var before := ConnectAll(idx, init);
      TotalConnectAll(idx, disk, init);
      TotalConnect(before, disk, t);
    }
  }
}
