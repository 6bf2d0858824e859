/** What the index says about the whole history of a chain: a list of stored
    transactions connected one after the other, starting from an empty index. */
module History {
  import opened Basics
  import opened Transactions
  import opened Marks

  ghost function Folded(ts: seq<Stored>): Index { ConnectAll(map[], ts) }

  /** `p` is the right mark for output `o`: null when nobody spends `o`, otherwise
      the position of the one and only transaction that does. */
  ghost predicate MarkIs(ts: seq<Stored>, o: OutPoint, p: DiskTxPos) {
    if p == NullPos then forall j :: 0 <= j < |ts| ==> o !in ts[j].tx.Spends()
    else exists j :: 0 <= j < |ts| && SoleSpender(ts, o, j) && p == ts[j].pos
  }

  ghost predicate SoleSpender(ts: seq<Stored>, o: OutPoint, j: nat)
    requires j < |ts|
  {
    && o in ts[j].tx.Spends()
    && forall i :: 0 <= i < |ts| && i != j ==> o !in ts[i].tx.Spends()
  }

  /** Only outputs of earlier transactions are ever spent. */
  lemma SpendsLookBack(ts: seq<Stored>, j: nat, o: OutPoint)
    requires Connectable(map[], ts) && j < |ts| && o in ts[j].tx.Spends()
    ensures o.hash in Ids(ts[..j])
  {
    ConnectableAt(map[], ts, j);
    ConnectAllKeys(map[], ts[..j]);
    assert Unspent(Folded(ts[..j]), o);
  }

  lemma MarkExtends(ts: seq<Stored>, o: OutPoint, p: DiskTxPos)
    requires ts != [] && o !in ts[|ts| - 1].tx.Spends() && MarkIs(ts[..|ts| - 1], o, p)
    ensures MarkIs(ts, o, p)
  {
    var init := ts[..|ts| - 1];
    forall j | 0 <= j < |init| ensures ts[j] == init[j] {}
    if p != NullPos {
      var j :| 0 <= j < |init| && SoleSpender(init, o, j) && p == init[j].pos;
      forall i | 0 <= i < |ts| && i != j ensures o !in ts[i].tx.Spends() {
        if i < |init| { assert o !in init[i].tx.Spends(); }
      }
      assert SoleSpender(ts, o, j) && p == ts[j].pos;
    } else {
      forall j | 0 <= j < |ts| ensures o !in ts[j].tx.Spends() {
        if j < |init| { assert o !in init[j].tx.Spends(); }
      }
    }
  }

  /** The index is the spender table of the chain: it holds exactly the chain's
      transactions at their own positions, and the mark of every output is set
      exactly when one (and only one) transaction of the chain spends it. */
  lemma {:induction false} FoldIsSpenderTable(ts: seq<Stored>)
    requires Connectable(map[], ts) && DistinctIds(ts)
    ensures Folded(ts).Keys == Ids(ts)
    ensures forall k :: 0 <= k < |ts| ==> EntryIs(ts, k)
  {
    ConnectAllKeys(map[], ts);
    if ts != [] {
      var init, t := ts[..|ts| - 1], ts[|ts| - 1];
      FoldIsSpenderTable(init);
      forall k | 0 <= k < |ts| ensures EntryIs(ts, k) {
        if k < |init| { EntryKept(ts, k); } else { EntryAdded(ts); }
      }
    }
  }

  ghost predicate EntryIs(ts: seq<Stored>, k: nat)
    requires k < |ts|
  {
    var idx, t := Folded(ts), ts[k];
    && t.tx.hash in idx
    && idx[t.tx.hash].pos == t.pos
    && |idx[t.tx.hash].vSpent| == |t.tx.vout|
    && forall n :: 0 <= n < |t.tx.vout| ==> MarkIs(ts, OutPoint(t.tx.hash, n), idx[t.tx.hash].vSpent[n])
  }

  lemma EntryKept(ts: seq<Stored>, k: nat)
    requires Connectable(map[], ts) && DistinctIds(ts)
    requires k < |ts| - 1 && EntryIs(ts[..|ts| - 1], k)
    ensures EntryIs(ts, k)
  {
    var init, t := ts[..|ts| - 1], ts[|ts| - 1];
    var before, h := Folded(init), ts[k].tx.hash;
    assert init[k] == ts[k] && h != t.tx.hash;
    var after := Folded(ts);
    assert after[h] == MarkAll(before, t.tx.Spends(), t.pos)[h];
    forall n | 0 <= n < |ts[k].tx.vout| ensures MarkIs(ts, OutPoint(h, n), after[h].vSpent[n]) {
      var o := OutPoint(h, n);
      assert MarkIs(init, o, before[h].vSpent[n]);
      if o in t.tx.Spends() {
        assert Unspent(before, o);
        forall i | 0 <= i < |ts| && i != |ts| - 1 ensures o !in ts[i].tx.Spends() {
          assert o !in init[i].tx.Spends();
        }
        assert SoleSpender(ts, o, |ts| - 1);
      } else {
        MarkExtends(ts, o, before[h].vSpent[n]);
      }
    }
  }

  lemma EntryAdded(ts: seq<Stored>)
    requires ts != [] && Connectable(map[], ts) && DistinctIds(ts)
    ensures EntryIs(ts, |ts| - 1)
  {
    var h := ts[|ts| - 1].tx.hash;
    forall n, j | 0 <= n < |ts[|ts| - 1].tx.vout| && 0 <= j < |ts| ensures OutPoint(h, n) !in ts[j].tx.Spends() {
      if OutPoint(h, n) in ts[j].tx.Spends() {
        SpendsLookBack(ts, j, OutPoint(h, n));
        assert false;
      }
    }
  }

  // ---------------------------------------------------------------- ids never repeat

  ghost predicate HashModel(ts: seq<Stored>) {
    forall i, j {:trigger HashPair(ts[i].tx, ts[j].tx)} ::
      0 <= i < |ts| && 0 <= j < |ts| ==> HashPair(ts[i].tx, ts[j].tx)
  }

  ghost predicate CoinbasesDiffer(ts: seq<Stored>) {
    forall i, j :: 0 <= i < j < |ts| && ts[i].tx.IsCoinBase() && ts[j].tx.IsCoinBase() ==>
      ts[i].tx.hash != ts[j].tx.hash
  }

  ghost predicate Marked(idx: Index, o: OutPoint) {
    InRange(idx, o) && idx[o.hash].vSpent[o.n] != NullPos
  }

  lemma ConnectMarks(idx: Index, t: Stored, o: OutPoint)
    requires StepOk(idx, t) && t.tx.hash != o.hash
    requires o in t.tx.Spends() || Marked(idx, o)
    ensures Marked(Connect(idx, t), o)
  {
    if o in t.tx.Spends() {
      assert Unspent(idx, o);
      assert OutPoint(o.hash, o.n) == o;
    }
    assert Connect(idx, t)[o.hash] == MarkAll(idx, t.tx.Spends(), t.pos)[o.hash];
  }

  lemma FoldedStep(ts: seq<Stored>, k: nat)
    requires k < |ts|
    ensures Folded(ts[..k + 1]) == Connect(Folded(ts[..k]), ts[k])
  {
    assert ts[..k + 1][..k] == ts[..k];
  }

  /** A mark stays set until the entry itself is replaced. */
  lemma {:induction false} MarkStays(ts: seq<Stored>, i: nat, k: nat, o: OutPoint)
    requires Connectable(map[], ts) && i <= k < |ts| && o in ts[i].tx.Spends()
    requires forall b :: i <= b <= k ==> ts[b].tx.hash != o.hash
    ensures Marked(Folded(ts[..k + 1]), o)
    decreases k
  {
    ConnectableAt(map[], ts, k);
    FoldedStep(ts, k);
    if i < k {
      MarkStays(ts, i, k - 1, o);
    }
    ConnectMarks(Folded(ts[..k]), ts[k], o);
  }

  /** An output can be spent again only after its entry was replaced. */
  lemma SpentAgain(ts: seq<Stored>, i: nat, j: nat, o: OutPoint) returns (b: nat)
    requires Connectable(map[], ts) && i < j < |ts| && o in ts[i].tx.Spends() && o in ts[j].tx.Spends()
    ensures i <= b < j && ts[b].tx.hash == o.hash
  {
    if c :| i <= c < j && ts[c].tx.hash == o.hash {
      b := c;
    } else {
      MarkStays(ts, i, j - 1, o);
      ConnectableAt(map[], ts, j);
      assert false;
    }
  }

  lemma {:induction false} RepeatRefuted(ts: seq<Stored>, i: nat, j: nat)
    requires Connectable(map[], ts) && HashModel(ts) && CoinbasesDiffer(ts)
    requires forall k :: 0 <= k < |ts| ==> ts[k].tx.vin != []
    requires i < j < |ts| && ts[i].tx.hash == ts[j].tx.hash
    ensures false
    decreases ts[i].tx.depth
  {
    var tx := ts[i].tx;
    assert HashPair(tx, ts[j].tx);
    assert tx == ts[j].tx && !tx.IsCoinBase();
    var o := tx.Spends()[0];
    SpendsLookBack(ts, i, o);
    var a :| 0 <= a < |ts[..i]| && ts[..i][a].tx.hash == o.hash;
    var b := SpentAgain(ts, i, j, o);
    assert HashPair(tx, ts[a].tx);
    RepeatRefuted(ts, a, b);
  }

  /** No transaction id repeats along a chain whose coinbases differ, although the
      overwrite rule by itself would allow replacing completely spent entries. */
  lemma IdsNeverRepeat(ts: seq<Stored>)
    requires Connectable(map[], ts) && HashModel(ts) && CoinbasesDiffer(ts)
    requires forall k :: 0 <= k < |ts| ==> ts[k].tx.vin != []
    ensures DistinctIds(ts)
  {
    forall i, j | 0 <= i < j < |ts| ensures ts[i].tx.hash != ts[j].tx.hash {
      if ts[i].tx.hash == ts[j].tx.hash {
        RepeatRefuted(ts, i, j);
      }
    }
  }
}
