/** The chain state machine: indexing blocks and following the chain with the most trust
    (src/main.cpp: AcceptBlock, AddToBlockIndex, SetBestChain, FindBlockByHeight). */
module Chain {
  import opened Basics
  import opened Transactions
  import opened Marks
  import opened Supply
  import opened Inputs
  import opened Blocks
  import opened BlockTree
  import opened ChainFold
  import opened Reorg
  import opened Trust
  import Retarget

  function Distance(a: int, b: int): nat { if a < b then b - a else a - b }

  /** The two loops of FindBlockByHeight: back along pprev, forward along pnext. */
  method WalkTo(t: Tree, ghost g: Hash, pnext: map<Hash, Hash>, ghost best: Hash, start: Hash, nHeight: nat)
    returns (p: Hash)
    requires TreeOk(t, g) && best in t && LinksTo(t, g, pnext, best) && Above(t, g, start, best)
      && nHeight <= t[best].nHeight
    ensures p == Up(t, g, best, nHeight)
  {
    p := start;
    while t[p].nHeight > nHeight
      invariant Above(t, g, p, best)
      decreases t[p].nHeight
    {
      ParentAbove(t, g, p);
      AboveTrans(t, g, t[p].prev.value, p, best);
      p := t[p].prev.value;
    }
    while t[p].nHeight < nHeight
      invariant Above(t, g, p, best) && t[p].nHeight <= nHeight
      decreases nHeight - t[p].nHeight
    {
      assert LinkOk(t, g, pnext, best, p);
      p := pnext[p];
    }
  }

  // ---------------------------------------------------------------- adding a block

  lemma {:induction false} TotalOnBiggerDisk(idx: Index, disk: Disk, more: Disk)
    requires WellFormed(idx, disk) && disk.Keys !! more.Keys
    ensures WellFormed(idx, disk + more) && Total(idx, disk + more) == Total(idx, disk)
    decreases |idx|
  {
    if idx != map[] {
      var h :| h in idx;
      TotalOnBiggerDisk(idx - {h}, disk, more);
      TotalSplit(idx, disk, h);
      assert forall e :: e in idx ==> (disk + more)[idx[e].pos] == disk[idx[e].pos];
      TotalSplit(idx, disk + more, h);
    }
  }

  /** The transactions of a block as WriteToDisk stores them. */
  function Written(ts: seq<Stored>): Disk {
    if ts == [] then map[] else Written(ts[..|ts| - 1])[ts[|ts| - 1].pos := ts[|ts| - 1].tx]
  }

  lemma {:induction false} WrittenKeys(ts: seq<Stored>, p: DiskTxPos)
    ensures p in Written(ts) <==> exists k :: 0 <= k < |ts| && ts[k].pos == p
  {
    if ts != [] {
      WrittenKeys(ts[..|ts| - 1], p);
      if p in Written(ts[..|ts| - 1]) {
        var k :| 0 <= k < |ts| - 1 && ts[..|ts| - 1][k].pos == p;
        assert ts[k].pos == p;
      }
    }
  }

  lemma {:induction false} WrittenIsStored(ts: seq<Stored>, k: nat)
    requires k < |ts| && forall i, j :: 0 <= i < j < |ts| ==> ts[i].pos != ts[j].pos
    ensures ts[k].pos in Written(ts) && Written(ts)[ts[k].pos] == ts[k].tx
  {
    if k < |ts| - 1 {
      WrittenIsStored(ts[..|ts| - 1], k);
      assert ts[..|ts| - 1][k] == ts[k];
    }
  }

  /** Positions grow with every transaction that has a size. */
  lemma {:induction false} TxPosGrows(b: Block, blockPos: nat, i: nat, j: nat)
    requires i < j <= |b.vtx| && forall k :: 0 <= k < |b.vtx| ==> b.vtx[k].nSize > 0
    ensures TxPos(b, blockPos, i) < TxPos(b, blockPos, j)
  {
    if i < j - 1 {
      TxPosGrows(b, blockPos, i, j - 1);
    }
  }

  /** A new leaf and its stored transactions leave what is known about `tip` alone. */
  lemma SyncedExtend(s: Store, more: Disk, n: Hash, node: Node, db: Index, supply: map<Hash, int>,
    pnext: map<Hash, Hash>, tip: Hash)
    requires Synced(s, db, supply, pnext, tip) && n !in s.index && TreeOk(s.index[n := node], s.genesis)
    requires s.disk.Keys !! more.Keys
    ensures Synced(Store(s.index[n := node], s.genesis, s.disk + more), db, supply, pnext, tip)
  {
    var t, g := s.index, s.genesis;
    var s' := Store(t[n := node], g, s.disk + more);
    FoldExtend(t, g, n, node, tip);
    ChainOkExtend(t, g, n, node, tip);
    LinksExtend(t, g, n, node, pnext, tip);
    forall a | a in s'.index && Above(s'.index, g, a, tip) ensures SupplyAt(s', supply, a) {
      UpExtend(t, g, n, node, tip, s'.index[a].nHeight);
      assert SupplyAt(s, supply, a);
      FoldExtend(t, g, n, node, a);
      TotalOnBiggerDisk(FoldTo(t, g, a), s.disk, more);
    }
  }

  predicate Sized(b: Block) { forall k :: 0 <= k < |b.vtx| ==> b.vtx[k].nSize > 0 }

  lemma WrittenOnDisk(node: Node)
    requires Sized(node.block)
    ensures OnDisk(Written(Ts(node)), Ts(node)) && GoodDisk(Written(Ts(node)))
  {
    var ts := Ts(node);
    PlacedPlaces(node.block, node.file, node.blockPos);
    WrittenKeys(ts, NullPos);
    WrittenKeys(ts, MEMPOOL_POS);
    forall i, j | 0 <= i < j < |ts| ensures ts[i].pos != ts[j].pos {
      TxPosGrows(node.block, node.blockPos, i, j);
    }
    forall k | 0 <= k < |ts| ensures ts[k].pos in Written(ts) && Written(ts)[ts[k].pos] == ts[k].tx {
      WrittenIsStored(ts, k);
    }
  }

  lemma NodesExtend(t: Tree, g: Hash, disk: Disk, n: Hash, node: Node, more: Disk)
    requires NodesOk(t, g, disk) && n !in t && NodeOk(node) && OnDisk(more, Ts(node)) && disk.Keys !! more.Keys
    ensures NodesOk(t[n := node], g, disk + more)
  {
    var t', disk' := t[n := node], disk + more;
    forall h | h in t' && h != g ensures Accepted(t', disk', h) {
      var ts := Ts(t'[h]);
      if h != n {
        assert Accepted(t, disk, h);
        forall k | 0 <= k < |ts| ensures ts[k].pos in disk' && disk'[ts[k].pos] == ts[k].tx {
          assert ts[k].pos in disk;
        }
      }
    }
  }

  ghost predicate IsChild(t: Tree, node: Node) {
    node.prev.Some? && node.prev.value in t && node.nHeight == t[node.prev.value].nHeight + 1
  }

  lemma TreeExtend(t: Tree, g: Hash, n: Hash, node: Node)
    requires TreeOk(t, g) && n !in t && IsChild(t, node)
    ensures TreeOk(t[n := node], g)
  {
    var t' := t[n := node];
    forall h | h in t' && h != g ensures HasParent(t', h) {
      if h != n { assert HasParent(t, h); }
    }
  }

  lemma StoreExtend(s: Store, n: Hash, node: Node, more: Disk)
    requires s.Ok() && n !in s.index && IsChild(s.index, node) && NodeOk(node)
    requires s.disk.Keys !! more.Keys && OnDisk(more, Ts(node)) && GoodDisk(more) && DiskModel(s.disk + more)
    ensures Store(s.index[n := node], s.genesis, s.disk + more).Ok()
  {
    TreeExtend(s.index, s.genesis, n, node);
    NodesExtend(s.index, s.genesis, s.disk, n, node, more);
  }

  /** `node` can be stored and indexed as `n`: it passed its checks, and its transactions
      go to unused places. */
  ghost predicate MayIndex(s: Store, n: Hash, node: Node) {
    && n !in s.index && IsChild(s.index, node) && NodeOk(node) && Sized(node.block) && HasShare(s, node)
    && s.disk.Keys !! Written(Ts(node)).Keys && DiskModel(s.disk + Written(Ts(node)))
  }

  /** `node` carries the target required of it, and its parent's trust with its own. */
  ghost predicate HasShare(s: Store, node: Node) {
    && TreeOk(s.index, s.genesis) && node.prev.Some? && node.prev.value in s.index
    && node.nChainTrust == s.index[node.prev.value].nChainTrust + Retarget.BlockTrust(node.block.nBits)
    && Required(s, node.prev.value, node.block)
  }

  /** Block `b` has the target that GetNextTargetRequired asks for on top of `p`. */
  ghost predicate Required(s: Store, p: Hash, b: Block) {
    && TreeOk(s.index, s.genesis) && p in s.index
    && b.nBits == Retarget.NextRequired(ChainTo(s.index, s.genesis, p), b.IsProofOfStake())
  }

  /** The store with just the genesis block. */
  function Root(g: Hash, b: Block, file: nat, blockPos: nat): Store {
    Store(map[g := Node(None, 0, Retarget.BlockTrust(b.nBits), b, file, blockPos)], g, map[])
  }

  function Grown(s: Store, n: Hash, node: Node): Store {
    Store(s.index[n := node], s.genesis, s.disk + Written(Ts(node)))
  }

  function NewNode(t: Tree, b: Block, file: nat, blockPos: nat): Node
    requires b.hashPrev in t
  {
    Node(Some(b.hashPrev), t[b.hashPrev].nHeight + 1, t[b.hashPrev].nChainTrust + Retarget.BlockTrust(b.nBits), b,
      file, blockPos)
  }

  /** The transactions of `b` have a size, go to unused places and fit the hash model. */
  predicate Storable(disk: Disk, b: Block, file: nat, blockPos: nat) {
    && Sized(b)
    && disk.Keys !! Written(Placed(b, file, blockPos)).Keys
    && DiskModel(disk + Written(Placed(b, file, blockPos)))
  }

  /** The new block outweighs the best one. */
  predicate HasMoreTrust(s: Store, best: Hash, h: Hash) {
    best in s.index && h in s.index && s.index[h].nChainTrust > s.index[best].nChainTrust
  }

  /** The checks of AcceptBlock that the rest depends on: a new block on an indexed parent, passing
      CheckBlock, with the required target, whose coinbase starts with the height. */
  ghost predicate Indexable(s: Store, env: Env, b: Block) {
    && b.hash !in s.index && b.hashPrev in s.index && Required(s, b.hashPrev, b)
    && CheckBlock(env.rules(b.hash), b) && b.vtx[0].coinbaseHeight == s.index[b.hashPrev].nHeight + 1
  }

  /** The store after a block was offered. */
  ghost function Indexed(s: Store, env: Env, b: Block, file: nat, blockPos: nat): Store {
    if Indexable(s, env, b) then Grown(s, b.hash, NewNode(s.index, b, file, blockPos)) else s
  }

  lemma CheckedShaped(r: BlockRules, b: Block)
    requires CheckBlock(r, b)
    ensures Shaped(b)
  {
    forall i | 0 <= i < |b.vtx| ensures b.vtx[i].vin != [] {
      assert CheckTransaction(b.vtx[i]);
    }
  }

  lemma CheckedMayIndex(s: Store, env: Env, b: Block, file: nat, blockPos: nat)
    requires Indexable(s, env, b) && Storable(s.disk, b, file, blockPos)
    ensures MayIndex(s, b.hash, NewNode(s.index, b, file, blockPos))
  {
    hide CheckBlock, DiskModel, Written, Placed;
    CheckedShaped(env.rules(b.hash), b);
  }

  // ---------------------------------------------------------------- states

  ghost predicate MarkOnChain(s: Store, best: Hash, mark: Option<Hash>) {
    mark.Some? ==> TreeOk(s.index, s.genesis) && best in s.index && Above(s.index, s.genesis, mark.value, best)
  }

  /** What holds in every state: a proper block tree, an index of stored transactions, and links
      that lead along the best chain. */
  ghost predicate GoodState(s: Store, db: Index, pnext: map<Hash, Hash>, dbBest: Hash, best: Hash, mark: Option<Hash>) {
    && s.Ok() && Weighed(s.index, s.genesis) && best in s.index && dbBest in s.index
    && WellFormed(db, s.disk) && LinksIn(s.index, s.genesis, pnext, best) && MarkOnChain(s, best, mark)
  }

  /** Moreover, database, supplies and links are those of the best chain. */
  ghost predicate Stable(s: Store, db: Index, supply: map<Hash, int>, pnext: map<Hash, Hash>, dbBest: Hash, best: Hash,
    mark: Option<Hash>)
  {
    GoodState(s, db, pnext, dbBest, best, mark) && dbBest == best && Synced(s, db, supply, pnext, best)
  }

  /** Indexing one more block changes nothing of this. */
  lemma IndexExtend(s: Store, n: Hash, node: Node, db: Index, pnext: map<Hash, Hash>, dbBest: Hash, best: Hash,
    mark: Option<Hash>)
    requires MayIndex(s, n, node) && GoodState(s, db, pnext, dbBest, best, mark)
    ensures GoodState(Grown(s, n, node), db, pnext, dbBest, best, mark)
  {
    WrittenOnDisk(node);
    StoreExtend(s, n, node, Written(Ts(node)));
    WeighedExtend(s.index, s.genesis, n, node);
    TotalOnBiggerDisk(db, s.disk, Written(Ts(node)));
    LinksInExtend(s.index, s.genesis, n, node, pnext, best);
    if mark.Some? {
      UpExtend(s.index, s.genesis, n, node, best, s.index[mark.value].nHeight);
    }
  }

  lemma StableExtend(s: Store, n: Hash, node: Node, db: Index, supply: map<Hash, int>, pnext: map<Hash, Hash>,
    dbBest: Hash, best: Hash, mark: Option<Hash>)
    requires MayIndex(s, n, node) && Stable(s, db, supply, pnext, dbBest, best, mark)
    ensures Stable(Grown(s, n, node), db, supply, pnext, dbBest, best, mark)
  {
    IndexExtend(s, n, node, db, pnext, dbBest, best, mark);
    SyncedExtend(s, Written(Ts(node)), n, node, db, supply, pnext, best);
  }

  lemma StableAdopts(s: Store, env: Env, db: Index, supply: map<Hash, int>, pnext: map<Hash, Hash>, dbBest: Hash,
    best: Hash, mark: Option<Hash>, h: Hash)
    requires Stable(s, db, supply, pnext, dbBest, best, mark) && h in s.index
    ensures Adopts(s, env, db, best, h) <==> AdoptOk(s, env, best, h)
  {
    hide BlockOk, ConnectAll, Placed;
    AdoptsIff(s, env, db, best, h);
  }

  // ---------------------------------------------------------------- the node

  class ChainState {
    var store: Store                   // mapBlockIndex, pindexGenesisBlock and the block files
    var txdb: Index                    // committed transaction index
    var dbBest: Hash                   // hashBestChain as written with the index
    var best: Hash                     // pindexBest
    var pnext: map<Hash, Hash>         // pnext, where it is not null
    var supply: map<Hash, int>         // nMoneySupply
    var fbbhLast: Option<Hash>         // pblockindexFBBHLast

    ghost predicate Valid()
      reads this
    {
      GoodState(store, txdb, pnext, dbBest, best, fbbhLast)
    }

    /** The database has followed the best block. */
    ghost predicate Settled()
      reads this
    {
      Stable(store, txdb, supply, pnext, dbBest, best, fbbhLast)
    }

    constructor (g: Hash, b: Block, file: nat, blockPos: nat)
      requires b.nBits == Retarget.NextRequired([], b.IsProofOfStake())
      ensures Settled() && best == g && store == Root(g, b, file, blockPos) && txdb == map[]
        && supply == map[g := 0] && Heaviest(store.index, best)
    {
      hide Retarget.NextRequired, Retarget.BlockTrust;
      store := Root(g, b, file, blockPos);
      txdb := map[];
      best, dbBest := g, g;
      pnext := map[];
      supply := map[g := 0];
      fbbhLast := None;
    }

    /** AcceptBlock up to the indexing of the block in AddToBlockIndex. */
    method AddChecked(b: Block, file: nat, blockPos: nat, env: Env) returns (ok: bool)
      requires Valid() && Storable(store.disk, b, file, blockPos)
      modifies this`store
      ensures Valid() && (old(Settled()) ==> Settled())
      ensures ok <==> Indexable(old(store), env, b)
      ensures store == Indexed(old(store), env, b, file, blockPos)
    {
      hide Retarget.NextRequired, Retarget.BlockTrust, WellFormed, NodesOk, Weighed, Written, Placed, Synced, LinksIn;
      hide DiskModel;
      if b.hash in store.index || b.hashPrev !in store.index {
        return false;
      }
      var nBits := Retarget.GetNextTargetRequired(
        ChainTo(store.index, store.genesis, b.hashPrev), b.IsProofOfStake());
      ok := b.nBits == nBits && CheckBlock(env.rules(b.hash), b)
        && b.vtx[0].coinbaseHeight == store.index[b.hashPrev].nHeight + 1;
      if ok {
        var node := NewNode(store.index, b, file, blockPos);
        CheckedMayIndex(store, env, b, file, blockPos);
        IndexExtend(store, b.hash, node, txdb, pnext, dbBest, best, fbbhLast);
        if Settled() { StableExtend(store, b.hash, node, txdb, supply, pnext, dbBest, best, fbbhLast); }
        store := Grown(store, b.hash, node);
      }
    }

    /** AcceptBlock with AddToBlockIndex: index a block that passes its checks, then make it
        the best one if it has more trust. */
    method AcceptBlock(b: Block, file: nat, blockPos: nat, env: Env) returns (ok: bool)
      requires Valid() && Storable(store.disk, b, file, blockPos)
      modifies this
      ensures Valid()
      ensures store == Indexed(old(store), env, b, file, blockPos)
      ensures ok <==> (
        && Indexable(old(store), env, b)
        && (HasMoreTrust(store, old(best), b.hash) ==> Adopts(store, env, old(txdb), old(best), b.hash)))
      ensures best == if ok && HasMoreTrust(store, old(best), b.hash) then b.hash else old(best)
      // the node follows the most trust
      ensures best != old(best) ==>
        best == b.hash && store.index[best].nChainTrust > store.index[old(best)].nChainTrust
      ensures Indexable(old(store), env, b) ==>
        store.index[b.hash].nChainTrust > store.index[old(best)].nChainTrust ==>
        Adopts(store, env, old(txdb), old(best), b.hash) ==> best == b.hash
      ensures (ok || store == old(store)) && old(Heaviest(store.index, best)) ==> Heaviest(store.index, best)
      ensures best == old(best) ==> txdb == old(txdb) && pnext == old(pnext) && dbBest == old(dbBest)
      ensures best != old(best) ==> Moved(store, env, old(txdb), old(best), best, txdb, dbBest)
      ensures old(Settled()) ==> (ok <==> (
        && Indexable(old(store), env, b)
        && (HasMoreTrust(store, old(best), b.hash) ==> AdoptOk(store, env, old(best), b.hash))))
      ensures old(Settled()) && best == old(best) ==> Settled()
      ensures old(Settled()) && best != old(best) ==>
        && Synced(store, txdb, supply, pnext, dbBest) && Above(store.index, store.genesis, dbBest, best)
        && (Settled() <==> dbBest == best) && (Settled() <==> FinishOk(store, env, old(best), best))
    {
      hide BlockOk, ConnectAll, Placed, Synced, LinksIn, Adopts, AdoptOk, FinishOk, Moved;
      hide Retarget.NextRequired, Retarget.BlockTrust, Weighed, Written, Required, DiskModel;
      ok := AddChecked(b, file, blockPos, env);
      if ok && HasMoreTrust(store, best, b.hash) {
        ok := SetBestChain(b.hash, env);
      }
    }

    /** FindBlockByHeight, whatever block it starts from. */
    method FindBlockByHeight(nHeight: nat) returns (p: Hash)
      requires Settled() && nHeight <= store.index[best].nHeight
      modifies this`fbbhLast
      ensures Settled()
      ensures p == Up(store.index, store.genesis, best, nHeight)
    {
      p := if nHeight < store.index[best].nHeight / 2 then store.genesis else best;
      GenesisAbove(store.index, store.genesis, best);
      if fbbhLast.Some?
        && Distance(nHeight, store.index[p].nHeight) > Distance(nHeight, store.index[fbbhLast.value].nHeight)
      {
        p := fbbhLast.value;
      }
      p := WalkTo(store.index, store.genesis, pnext, best, p, nHeight);
      fbbhLast := Some(p);
    }

    /** Reorganize: switch the database and the links to the branch ending in `h`. A failure
        leaves both alone. */
    method Reorganize(h: Hash, env: Env) returns (ok: bool)
      requires Valid() && h in store.index
      modifies this`txdb, this`dbBest, this`pnext, this`supply
      ensures ok <==> CanSwitch(store, env, old(txdb), best, h)
      ensures WellFormed(txdb, store.disk) && LinksIn(store.index, store.genesis, pnext, if ok then h else best)
      ensures ok ==> dbBest == h && txdb == Switched(store, old(txdb), best, h)
      ensures !ok ==> txdb == old(txdb) && dbBest == old(dbBest) && pnext == old(pnext)
      ensures old(Settled()) ==> Synced(store, txdb, supply, pnext, dbBest)
    {
      hide BlockOk, ConnectAll, Placed, Synced, LinksIn, CanSwitch, Switched;
      ok, txdb, supply, pnext := Switch(store, txdb, supply, pnext, best, h, env);
      if ok {
        dbBest := h;
      }
    }

    /** SetBestChainInner: attach `h`, a child of the best block. */
    method SetBestChainInner(h: Hash, env: Env) returns (ok: bool)
      requires Valid() && h in store.index && h != store.genesis && store.index[h].prev == Some(best)
      modifies this`txdb, this`dbBest, this`pnext, this`supply
      ensures ok <==> Accepts(store, env, old(txdb), h) && h !in env.uncommitted
      ensures WellFormed(txdb, store.disk) && LinksIn(store.index, store.genesis, pnext, if ok then h else best)
      ensures ok ==> dbBest == h && txdb == After(store, old(txdb), h)
      ensures !ok ==> txdb == old(txdb) && dbBest == old(dbBest) && pnext == old(pnext)
      ensures old(Settled()) ==> Synced(store, txdb, supply, pnext, dbBest)
    {
      hide BlockOk, ConnectAll, Placed, Synced, LinksIn;
      ok, txdb, supply, pnext := Attach(store, txdb, supply, pnext, best, h, env);
      if ok {
        dbBest := h;
      }
    }

    /** The postponed connects, after a reorganisation to `p`. */
    method ConnectPostponed(p: Hash, h: Hash, v: seq<Hash>, env: Env)
      requires store.Ok() && h in store.index && LeadsDown(store.index, store.genesis, h, p, v) && dbBest == p
      requires WellFormed(txdb, store.disk) && LinksIn(store.index, store.genesis, pnext, p)
      modifies this`txdb, this`dbBest, this`pnext, this`supply
      ensures StopsAt(store, env, old(txdb), p, h, txdb, dbBest)
      ensures Above(store.index, store.genesis, dbBest, h)
      ensures WellFormed(txdb, store.disk) && LinksIn(store.index, store.genesis, pnext, dbBest)
      ensures old(Synced(store, txdb, supply, pnext, p)) ==>
        Synced(store, txdb, supply, pnext, dbBest) && (dbBest == h <==> ClimbOk(store, env, p, h))
    {
      hide BlockOk, ConnectAll, Placed;
      PathKnown(store, p, h);
      ghost var w := PathUp(store.index, store.genesis, p, h);
      if Synced(store, txdb, supply, pnext, p) { ClimbIff(store, env, txdb, p, h); }
      txdb, supply, pnext, dbBest := AttachAll(store, txdb, supply, pnext, p, h, v, w, env);
    }

    /** The last branch of SetBestChain: reorganize to the first block with enough trust, then
        attach the postponed ones. */
    method SwitchInSteps(h: Hash, env: Env) returns (ok: bool)
      requires Valid() && h in store.index
      modifies this`txdb, this`dbBest, this`pnext, this`supply
      ensures ok <==> CanSwitch(store, env, old(txdb), best, Intermediate(store.index, store.genesis, best, h))
      ensures ok ==>
        var p := Intermediate(store.index, store.genesis, best, h);
        StopsAt(store, env, Switched(store, old(txdb), best, p), p, h, txdb, dbBest)
      ensures ok ==> Above(store.index, store.genesis, dbBest, h)
      ensures ok ==> WellFormed(txdb, store.disk) && LinksIn(store.index, store.genesis, pnext, dbBest)
      ensures !ok ==> txdb == old(txdb) && dbBest == old(dbBest) && pnext == old(pnext)
      ensures old(Settled()) ==> Synced(store, txdb, supply, pnext, dbBest)
      ensures old(Settled()) && ok ==>
        (dbBest == h <==> ClimbOk(store, env, Intermediate(store.index, store.genesis, best, h), h))
    {
      hide BlockOk, ConnectAll, Placed, Synced, LinksIn, CanSwitch, ClimbOk, Switched, StopsAt;
      var pindexIntermediate, vpindexSecondary := Postpone(store.index, store.genesis, best, h);
      ok := Reorganize(pindexIntermediate, env);
      if ok {
        ConnectPostponed(pindexIntermediate, h, vpindexSecondary, env);
      }
    }

    /** SetBestChain. On success `h` becomes the best block even if connecting one of the
        postponed blocks failed; from a settled state it stays settled exactly if all of them
        can be connected. */
    method SetBestChain(h: Hash, env: Env) returns (ok: bool)
      requires Valid() && h in store.index && h != store.genesis
      modifies this`txdb, this`dbBest, this`pnext, this`supply, this`best, this`fbbhLast
      ensures Valid()
      ensures ok <==> Adopts(store, env, old(txdb), old(best), h)
      ensures ok ==> best == h && Above(store.index, store.genesis, dbBest, best)
      ensures ok ==> Moved(store, env, old(txdb), old(best), h, txdb, dbBest)
      ensures !ok ==> best == old(best) && txdb == old(txdb) && pnext == old(pnext) && dbBest == old(dbBest)
      ensures old(Settled()) ==> (ok <==> AdoptOk(store, env, old(best), h))
      ensures old(Settled()) && ok ==>
        && Synced(store, txdb, supply, pnext, dbBest)
        && (Settled() <==> dbBest == best) && (Settled() <==> FinishOk(store, env, old(best), h))
      ensures old(Settled()) && !ok ==> Settled()
    {
      hide BlockOk, ConnectAll, Placed, Synced, LinksIn, CanSwitch, SwitchOk, ClimbOk, Switched, StopsAt;
      hide WellFormed, LeadsDown, Accepts, Intermediate, Postponed, NodesOk, DiskModel, GoodDisk;
      if Settled() { StableAdopts(store, env, txdb, supply, pnext, dbBest, best, fbbhLast, h); }
      assert HasParent(store.index, h);
      if store.index[h].prev == Some(best) {
        ok := SetBestChainInner(h, env);
      } else {
        ok := SwitchInSteps(h, env);
      }
      if !ok {
        return;
      }
      LinksInBelow(store.index, store.genesis, pnext, dbBest, h);
      best := h;
      fbbhLast := None;
    }
  }

  // ---------------------------------------------------------------- every run of offered blocks

  datatype Offer = Offer(b: Block, file: nat, blockPos: nat, env: Env)

  /** The trust of the blocks `bests` never falls. */
  ghost predicate Rising(t: Tree, bests: seq<Hash>) {
    && (forall i :: 0 <= i < |bests| ==> bests[i] in t)
    && forall i, j :: 0 <= i <= j < |bests| ==> t[bests[i]].nChainTrust <= t[bests[j]].nChainTrust
  }

  /** Block `h` was offered, and never accepted. */
  ghost predicate Declined(os: seq<Offer>, oks: seq<bool>, h: Hash)
    requires |oks| == |os|
  {
    && (exists k :: 0 <= k < |os| && os[k].b.hash == h)
    && forall k :: 0 <= k < |os| && os[k].b.hash == h ==> !oks[k]
  }

  ghost predicate AcceptedIn(t: Tree, os: seq<Offer>, oks: seq<bool>)
    requires |oks| == |os|
  {
    forall k :: 0 <= k < |os| && oks[k] ==> os[k].b.hash in t
  }

  /** Every indexed block with more trust than `best` was declined. */
  ghost predicate HeaviestBut(t: Tree, best: Hash, os: seq<Offer>, oks: seq<bool>)
    requires |oks| == |os|
  {
    best in t && forall h :: h in t && t[h].nChainTrust > t[best].nChainTrust ==> Declined(os, oks, h)
  }

  ghost predicate Grew(t: Tree, t': Tree) { forall h :: h in t ==> h in t' && t'[h] == t[h] }

  /** Offer one block; one whose transactions would go to used places or break the hash model is not
      taken. */
  method OfferOne(chain: ChainState, o: Offer) returns (ok: bool)
    requires chain.Valid()
    modifies chain
    ensures chain.Valid() && Grew(old(chain.store.index), chain.store.index)
    ensures forall h :: h in chain.store.index && h !in old(chain.store.index) ==> h == o.b.hash
    ensures chain.best in chain.store.index && old(chain.best) in chain.store.index
    ensures chain.store.index[chain.best].nChainTrust >= chain.store.index[old(chain.best)].nChainTrust
    ensures ok ==> o.b.hash !in old(chain.store.index) && o.b.hash in chain.store.index
    ensures ok ==>
      chain.store.index[chain.best].nChainTrust >= chain.store.index[o.b.hash].nChainTrust
  {
    hide Adopts, AdoptOk, FinishOk, Moved, Synced, LinksIn, Weighed, WellFormed, Required, Storable, Written;
    hide CheckBlock, Retarget.BlockTrust;
    ok := false;
    if Storable(chain.store.disk, o.b, o.file, o.blockPos) {
      ok := chain.AcceptBlock(o.b, o.file, o.blockPos, o.env);
    }
  }

  /** Over every run of offered blocks the trust of the best block never falls, and from the start a
      block can only have more if it never was accepted. */
  method OfferAll(chain: ChainState, os: seq<Offer>) returns (oks: seq<bool>, ghost bests: seq<Hash>)
    requires chain.Valid()
    modifies chain
    ensures chain.Valid() && |oks| == |os|
    ensures |bests| == |os| + 1 && bests[0] == old(chain.best) && bests[|os|] == chain.best
    ensures Rising(chain.store.index, bests) && AcceptedIn(chain.store.index, os, oks)
    ensures old(Heaviest(chain.store.index, chain.best)) ==>
      HeaviestBut(chain.store.index, chain.best, os, oks)
  {
    hide GoodState;
    oks, bests := [], [chain.best];
    BestIsIn(chain);
    for i := 0 to |os|
      invariant chain.Valid() && |oks| == i && |bests| == i + 1
      invariant bests[0] == old(chain.best) && bests[i] == chain.best && Rising(chain.store.index, bests)
      invariant AcceptedIn(chain.store.index, os[..i], oks)
      invariant old(Heaviest(chain.store.index, chain.best)) ==>
        HeaviestBut(chain.store.index, chain.best, os[..i], oks)
    {
      ghost var t := chain.store.index;
      var ok := OfferOne(chain, os[i]);
      RisingOn(t, chain.store.index, bests, chain.best);
      if HeaviestBut(t, bests[i], os[..i], oks) {
        HeaviestOn(t, chain.store.index, bests[i], chain.best, os[..i], oks, os[i], ok);
        assert os[..i + 1] == os[..i] + [os[i]];
      }
      oks, bests := oks + [ok], bests + [chain.best];
    }
    assert os[..|os|] == os;
  }

  lemma BestIsIn(chain: ChainState)
    requires chain.Valid()
    ensures chain.best in chain.store.index
  {}

  lemma RisingOn(t: Tree, t': Tree, bests: seq<Hash>, best: Hash)
    requires Rising(t, bests) && bests != [] && Grew(t, t') && best in t'
    requires t'[best].nChainTrust >= t[bests[|bests| - 1]].nChainTrust
    ensures Rising(t', bests + [best])
  {}

  lemma HeaviestOn(t: Tree, t': Tree, best: Hash, best': Hash, os: seq<Offer>, oks: seq<bool>, o: Offer, ok: bool)
    requires |os| == |oks| && HeaviestBut(t, best, os, oks) && Grew(t, t') && best' in t'
    requires t'[best'].nChainTrust >= t[best].nChainTrust
    requires AcceptedIn(t, os, oks) && forall h :: h in t' && h !in t ==> h == o.b.hash
    requires ok ==> o.b.hash !in t && o.b.hash in t' && t'[best'].nChainTrust >= t'[o.b.hash].nChainTrust
    ensures HeaviestBut(t', best', os + [o], oks + [ok])
  {
    var os', oks' := os + [o], oks + [ok];
    forall h | h in t' && t'[h].nChainTrust > t'[best'].nChainTrust ensures Declined(os', oks', h) {
      if h in t {
        var k :| 0 <= k < |os| && os[k].b.hash == h;
        assert os'[k].b.hash == h;
      } else {
        assert os'[|os|].b.hash == h;
      }
    }
  }
}
