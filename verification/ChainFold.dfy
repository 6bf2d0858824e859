/** The plain meaning of a chain: folding its blocks, from the one after genesis up to
    a given tip, into an initially empty transaction index. */
module ChainFold {
  import opened Basics
  import opened Transactions
  import opened Marks
  import opened Supply
  import opened History
  import opened Inputs
  import opened Blocks
  import opened BlockTree

  function Ts(n: Node): seq<Stored> { Placed(n.block, n.file, n.blockPos) }

  ghost function FoldTo(t: Tree, g: Hash, h: Hash): Index
    requires TreeOk(t, g) && h in t
    decreases t[h].nHeight
  {
    if h == g then map[]
    else
      assert HasParent(t, h);
      ConnectAll(FoldTo(t, g, t[h].prev.value), Ts(t[h]))
  }

  /** All transactions of the chain ending in `h`, in order. */
  ghost function TxsTo(t: Tree, g: Hash, h: Hash): seq<Stored>
    requires TreeOk(t, g) && h in t
    decreases t[h].nHeight
  {
    if h == g then []
    else
      assert HasParent(t, h);
      TxsTo(t, g, t[h].prev.value) + Ts(t[h])
  }

  /** Every block up to `h` connects on top of its parent. */
  ghost predicate ChainOk(t: Tree, g: Hash, h: Hash)
    requires TreeOk(t, g) && h in t
  {
    forall b {:trigger Connects(t, g, b)} :: b in t && b != g && Above(t, g, b, h) ==> Connects(t, g, b)
  }

  ghost predicate Connects(t: Tree, g: Hash, b: Hash)
    requires TreeOk(t, g) && b in t && b != g
  {
    HasParent(t, b) && Connectable(FoldTo(t, g, t[b].prev.value), Ts(t[b]))
  }

  lemma ChainOkBelow(t: Tree, g: Hash, h: Hash, a: Hash)
    requires TreeOk(t, g) && h in t && ChainOk(t, g, h) && Above(t, g, a, h)
    ensures ChainOk(t, g, a)
  {
    forall b | b in t && b != g && Above(t, g, b, a) ensures Connects(t, g, b) {
      AboveTrans(t, g, b, a, h);
    }
  }

  /** The last block of a connected chain, on top of the rest. */
  lemma ChainOkSplit(t: Tree, g: Hash, h: Hash)
    requires TreeOk(t, g) && h in t && h != g && ChainOk(t, g, h)
    ensures Connects(t, g, h) && ChainOk(t, g, t[h].prev.value)
  {
    ParentAbove(t, g, h);
    ChainOkBelow(t, g, h, t[h].prev.value);
  }

  /** What CheckBlock makes sure of: one coinbase, in front; no transaction without
      inputs; no id twice. */
  ghost predicate Shaped(b: Block) {
    && b.vtx != []
    && (forall i :: 0 <= i < |b.vtx| ==> (b.vtx[i].IsCoinBase() <==> i == 0))
    && (forall i :: 0 <= i < |b.vtx| ==> b.vtx[i].vin != [])
    && (forall i, j :: 0 <= i < j < |b.vtx| ==> b.vtx[i].hash != b.vtx[j].hash)
  }

  /** What AcceptBlock has checked of every indexed block: its shape, and that the
      coinbase starts with the block height. */
  ghost predicate NodeOk(n: Node) {
    Shaped(n.block) && n.block.vtx[0].coinbaseHeight == n.nHeight
  }

  /** All indexed blocks were accepted and are stored. */
  ghost predicate NodesOk(t: Tree, g: Hash, disk: Disk) {
    forall h {:trigger Accepted(t, disk, h)} :: h in t && h != g ==> Accepted(t, disk, h)
  }

  ghost predicate Accepted(t: Tree, disk: Disk, h: Hash)
    requires h in t
  {
    NodeOk(t[h]) && OnDisk(disk, Ts(t[h]))
  }

  /** The hash model for everything that is stored. */
  predicate DiskModel(disk: Disk) {
    forall p, q {:trigger HashPair(disk[p], disk[q])} :: p in disk && q in disk ==> HashPair(disk[p], disk[q])
  }

  // ---------------------------------------------------------------- from blocks to one list

  lemma {:induction false} ConnectAllConcat(idx: Index, a: seq<Stored>, b: seq<Stored>)
    ensures ConnectAll(idx, a + b) == ConnectAll(ConnectAll(idx, a), b)
    ensures Connectable(idx, a + b) <==> Connectable(idx, a) && Connectable(ConnectAll(idx, a), b)
    decreases |b|
  {
    if b == [] {
      assert a + b == a;
    } else {
      var init := b[..|b| - 1];
      ConnectAllConcat(idx, a, init);
      assert (a + b)[..|a + b| - 1] == a + init;
    }
  }

  lemma {:induction false} ChainIsHistory(t: Tree, g: Hash, h: Hash)
    requires TreeOk(t, g) && h in t && ChainOk(t, g, h)
    ensures Connectable(map[], TxsTo(t, g, h)) && Folded(TxsTo(t, g, h)) == FoldTo(t, g, h)
    decreases t[h].nHeight
  {
    if h != g {
      ChainOkSplit(t, g, h);
      ChainIsHistory(t, g, t[h].prev.value);
      ConnectAllConcat(map[], TxsTo(t, g, t[h].prev.value), Ts(t[h]));
    }
  }

  ghost predicate HistoryOk(disk: Disk, ts: seq<Stored>, height: nat) {
    && OnDisk(disk, ts)
    && (forall i :: 0 <= i < |ts| ==> ts[i].tx.vin != [])
    && (forall i :: 0 <= i < |ts| && ts[i].tx.IsCoinBase() ==> ts[i].tx.coinbaseHeight <= height)
    && CoinbasesDiffer(ts)
  }

  /** The height rule makes all coinbases of a chain different. */
  lemma {:induction false} HistoryIsOk(t: Tree, g: Hash, disk: Disk, h: Hash)
    requires TreeOk(t, g) && h in t && NodesOk(t, g, disk) && DiskModel(disk)
    ensures HistoryOk(disk, TxsTo(t, g, h), t[h].nHeight)
    decreases t[h].nHeight
  {
    if h != g {
      assert HasParent(t, h);
      var p := t[h].prev.value;
      HistoryIsOk(t, g, disk, p);
      assert Accepted(t, disk, h);
      AppendHistory(disk, TxsTo(t, g, p), t[h]);
    }
  }

  lemma AppendHistory(disk: Disk, old': seq<Stored>, n: Node)
    requires DiskModel(disk) && n.nHeight > 0
    requires HistoryOk(disk, old', n.nHeight - 1) && NodeOk(n) && OnDisk(disk, Ts(n))
    ensures HistoryOk(disk, old' + Ts(n), n.nHeight)
  {
    var ts := old' + Ts(n);
    forall i, j | 0 <= i < j < |ts| && ts[i].tx.IsCoinBase() && ts[j].tx.IsCoinBase()
      ensures ts[i].tx.hash != ts[j].tx.hash
    {
      if j >= |old'| {
        assert j == |old'| && ts[j].tx.coinbaseHeight == n.nHeight;
        assert ts[i].tx.coinbaseHeight < n.nHeight;
        assert disk[ts[i].pos] == ts[i].tx && disk[ts[j].pos] == ts[j].tx;
        assert HashPair(disk[ts[i].pos], disk[ts[j].pos]);
      }
    }
  }

  /** Along a connected chain no transaction id repeats. */
  lemma ChainIdsDistinct(t: Tree, g: Hash, disk: Disk, h: Hash)
    requires TreeOk(t, g) && h in t && NodesOk(t, g, disk) && DiskModel(disk) && ChainOk(t, g, h)
    ensures DistinctIds(TxsTo(t, g, h))
  {
    var ts := TxsTo(t, g, h);
    ChainIsHistory(t, g, h);
    HistoryIsOk(t, g, disk, h);
    forall i, j | 0 <= i < |ts| && 0 <= j < |ts| ensures HashPair(ts[i].tx, ts[j].tx) {
      assert HashPair(disk[ts[i].pos], disk[ts[j].pos]);
    }
    IdsNeverRepeat(ts);
  }

  lemma DistinctSplit(a: seq<Stored>, b: seq<Stored>)
    requires DistinctIds(a + b)
    ensures DistinctIds(b)
    ensures forall idx: Index :: idx.Keys == Ids(a) ==> Fresh(idx, b)
  {
    forall i, j | 0 <= i < j < |b| ensures b[i].tx.hash != b[j].tx.hash {
      assert (a + b)[|a| + i] == b[i] && (a + b)[|a| + j] == b[j];
    }
    forall k | 0 <= k < |b| ensures b[k].tx.hash !in Ids(a) {
      forall i | 0 <= i < |a| ensures a[i].tx.hash != b[k].tx.hash {
        assert (a + b)[i] == a[i] && (a + b)[|a| + k] == b[k];
      }
    }
  }

  /** So a block never replaces an entry that its ancestors put into the index. */
  lemma BlockIsFresh(t: Tree, g: Hash, disk: Disk, h: Hash)
    requires TreeOk(t, g) && h in t && h != g && NodesOk(t, g, disk) && DiskModel(disk) && ChainOk(t, g, h)
    ensures HasParent(t, h) && Fresh(FoldTo(t, g, t[h].prev.value), Ts(t[h])) && DistinctIds(Ts(t[h]))
  {
    ChainOkSplit(t, g, h);
    var p := t[h].prev.value;
    assert DistinctIds(TxsTo(t, g, p) + Ts(t[h])) by { ChainIdsDistinct(t, g, disk, h); }
    DistinctSplit(TxsTo(t, g, p), Ts(t[h]));
    FoldKeys(t, g, p);
  }

  lemma FoldKeys(t: Tree, g: Hash, h: Hash)
    requires TreeOk(t, g) && h in t && ChainOk(t, g, h)
    ensures FoldTo(t, g, h).Keys == Ids(TxsTo(t, g, h))
  {
    ChainIsHistory(t, g, h);
    ConnectAllKeys(map[], TxsTo(t, g, h));
  }

  /** Disconnecting the tip of a connected chain never fails and gives the fold up to
      its parent. */
  lemma TipUndo(t: Tree, g: Hash, disk: Disk, h: Hash)
    requires TreeOk(t, g) && h in t && h != g && NodesOk(t, g, disk) && DiskModel(disk) && ChainOk(t, g, h)
    ensures HasParent(t, h) && ChainOk(t, g, t[h].prev.value)
    ensures CanDisconnect(FoldTo(t, g, h), Ts(t[h]))
    ensures DisconnectAll(FoldTo(t, g, h), Ts(t[h])) == FoldTo(t, g, t[h].prev.value)
  {
    ChainOkSplit(t, g, h);
    BlockIsFresh(t, g, disk, h);
    ConnectAllUndo(FoldTo(t, g, t[h].prev.value), Ts(t[h]));
    ConnectedCanDisconnect(FoldTo(t, g, t[h].prev.value), Ts(t[h]));
  }

  /** The fold of a connected chain is well formed, and is the spender table of the
      transactions on the chain. */
  lemma FoldToMeans(t: Tree, g: Hash, disk: Disk, h: Hash)
    requires TreeOk(t, g) && h in t && NodesOk(t, g, disk) && DiskModel(disk) && ChainOk(t, g, h)
    ensures FoldTo(t, g, h).Keys == Ids(TxsTo(t, g, h))
    ensures forall k :: 0 <= k < |TxsTo(t, g, h)| ==> EntryIs(TxsTo(t, g, h), k)
    ensures Folded(TxsTo(t, g, h)) == FoldTo(t, g, h)
    ensures WellFormed(FoldTo(t, g, h), disk)
  {
    ChainIsHistory(t, g, h);
    ChainIdsDistinct(t, g, disk, h);
    FoldIsSpenderTable(TxsTo(t, g, h));
    HistoryIsOk(t, g, disk, h);
    TotalConnectAll(map[], disk, TxsTo(t, g, h));
  }

  // ---------------------------------------------------------------- growing the tree

  lemma {:induction false} FoldExtend(t: Tree, g: Hash, n: Hash, node: Node, h: Hash)
    requires TreeOk(t, g) && n !in t && TreeOk(t[n := node], g) && h in t
    ensures FoldTo(t[n := node], g, h) == FoldTo(t, g, h)
    decreases t[h].nHeight
  {
    if h != g {
      assert HasParent(t, h) && HasParent(t[n := node], h);
      FoldExtend(t, g, n, node, t[h].prev.value);
    }
  }

  lemma ChainOkExtend(t: Tree, g: Hash, n: Hash, node: Node, h: Hash)
    requires TreeOk(t, g) && n !in t && TreeOk(t[n := node], g) && h in t && ChainOk(t, g, h)
    ensures ChainOk(t[n := node], g, h)
  {
    var t' := t[n := node];
    forall b | b in t' && b != g && Above(t', g, b, h) ensures Connects(t', g, b) {
      UpExtend(t, g, n, node, h, t'[b].nHeight);
      assert Connects(t, g, b);
      assert HasParent(t', b);
      FoldExtend(t, g, n, node, t[b].prev.value);
    }
  }
}
