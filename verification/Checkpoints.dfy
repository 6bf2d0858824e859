/** Synchronized checkpoints in STRICT mode on the main network (src/checkpoints.cpp), on top
    of the chain state. */
module Checkpoints {
  import opened Basics
  import opened Transactions
  import opened Inputs
  import opened Blocks
  import opened BlockTree
  import opened ChainFold
  import opened Reorg
  import opened Chain
  import opened Trust
  import Retarget

  /** `h` is a proper descendant of `a`. */
  ghost predicate Below(t: Tree, g: Hash, h: Hash, a: Hash)
    requires TreeOk(t, g) && h in t
  {
    a != h && Above(t, g, a, h)
  }

  lemma BelowTrans(t: Tree, g: Hash, a: Hash, b: Hash, c: Hash)
    requires TreeOk(t, g) && b in t && c in t && Above(t, g, a, b) && Below(t, g, c, b)
    ensures Below(t, g, c, a)
  {
    AboveTrans(t, g, a, b, c);
  }

  /** A new leaf leaves the ancestors of the others alone. */
  lemma AboveExtend(t: Tree, g: Hash, n: Hash, node: Node, a: Hash, h: Hash)
    requires TreeOk(t, g) && n !in t && IsChild(t, node) && h in t
    ensures TreeOk(t[n := node], g)
    ensures a in t ==> (Above(t[n := node], g, a, h) <==> Above(t, g, a, h))
  {
    TreeExtend(t, g, n, node);
    if a in t && t[a].nHeight <= t[h].nHeight { UpExtend(t, g, n, node, h, t[a].nHeight); }
  }

  /** A loop that follows pprev down to a height. Its error return, for a missing parent, is
      not reached in a proper tree. */
  method TraceBack(t: Tree, ghost g: Hash, from: Hash, nHeight: nat) returns (p: Hash)
    requires TreeOk(t, g) && from in t
    ensures p in t
    ensures nHeight <= t[from].nHeight ==> p == Up(t, g, from, nHeight)
    ensures nHeight > t[from].nHeight ==> p == from
  {
    p := from;
    while t[p].nHeight > nHeight
      invariant p in t && (nHeight <= t[from].nHeight
        ==> nHeight <= t[p].nHeight && Up(t, g, p, nHeight) == Up(t, g, from, nHeight))
      invariant nHeight > t[from].nHeight ==> p == from
      decreases t[p].nHeight
    {
      assert HasParent(t, p);
      p := t[p].prev.value;
    }
  }

  /** ValidateSyncCheckpoint: exactly the proper descendants of the current checkpoint pass;
      a block on another branch is remembered as invalid, an older one is only ignored. */
  method ValidateSyncCheckpoint(t: Tree, ghost g: Hash, hashSync: Hash, hashCheckpoint: Hash)
    returns (ok: bool, invalid: bool)
    requires TreeOk(t, g)
    ensures ok <==> hashSync in t && hashCheckpoint in t && Below(t, g, hashCheckpoint, hashSync)
    ensures invalid <==>
      hashSync in t && hashCheckpoint in t && !Above(t, g, hashSync, hashCheckpoint)
        && !Above(t, g, hashCheckpoint, hashSync)
  {
    if hashSync !in t || hashCheckpoint !in t {
      return false, false;
    }
    if t[hashCheckpoint].nHeight <= t[hashSync].nHeight {
      var p := TraceBack(t, g, hashSync, t[hashCheckpoint].nHeight);
      return false, p != hashCheckpoint;
    }
    var p := TraceBack(t, g, hashCheckpoint, t[hashSync].nHeight);
    return p == hashSync, p != hashSync;
  }

  /** CheckSync: a block that is not yet indexed passes exactly if it extends the checkpoint. */
  method CheckSync(t: Tree, ghost g: Hash, hashSync: Hash, hashBlock: Hash, prev: Hash) returns (ok: bool)
    requires TreeOk(t, g) && hashSync in t && prev in t
    ensures hashBlock !in t ==> (ok <==> Above(t, g, hashSync, prev))
    ensures hashBlock in t && t[hashBlock].prev == Some(prev) && t[hashBlock].nHeight == t[prev].nHeight + 1 ==>
      (ok <==> Above(t, g, hashSync, hashBlock) || t[hashBlock].nHeight < t[hashSync].nHeight)
  {
    var nHeight := t[prev].nHeight + 1;
    if nHeight > t[hashSync].nHeight {
      var p := TraceBack(t, g, prev, t[hashSync].nHeight);
      if t[p].nHeight < t[hashSync].nHeight || p != hashSync {
        return false;
      }
    }
    if nHeight == t[hashSync].nHeight && hashBlock != hashSync {
      return false;
    }
    if nHeight < t[hashSync].nHeight && hashBlock !in t {
      return false;
    }
    return true;
  }

  // ---------------------------------------------------------------- runs

  /** What a run of the protocol shows: block tree, best block and current checkpoint. */
  datatype View = View(t: Tree, g: Hash, best: Hash, sync: Hash)

  /** The checkpoint is an indexed block of the best chain. */
  ghost predicate SafeView(v: View) {
    TreeOk(v.t, v.g) && v.best in v.t && v.sync in v.t && Above(v.t, v.g, v.sync, v.best)
  }

  ghost predicate Grows(t: Tree, t': Tree) { forall h :: h in t ==> h in t' && t'[h] == t[h] }

  /** Block `h`, if new, extends checkpoint `sync`. */
  ghost predicate NewIsBelow(v: View, v': View, h: Hash)
    requires TreeOk(v'.t, v'.g)
  {
    h in v'.t && h !in v.t ==> Below(v'.t, v'.g, h, v.sync)
  }

  /** One step: the checkpoint stays or moves to a proper descendant, and every block indexed
      by the step is a proper descendant of the checkpoint. */
  ghost predicate Step(v: View, v': View) {
    && SafeView(v') && v'.g == v.g && Grows(v.t, v'.t)
    && (v'.sync == v.sync || Below(v'.t, v'.g, v'.sync, v.sync))
    && forall h {:trigger NewIsBelow(v, v', h)} :: NewIsBelow(v, v', h)
  }

  ghost predicate Run(vs: seq<View>) {
    && vs != [] && SafeView(vs[0])
    && forall i :: 0 <= i < |vs| - 1 ==> Step(vs[i], vs[i + 1])
  }

  lemma {:induction false} UpGrows(t: Tree, t': Tree, g: Hash, h: Hash, k: nat)
    requires TreeOk(t, g) && TreeOk(t', g) && Grows(t, t') && h in t && k <= t[h].nHeight
    ensures h in t' && t'[h] == t[h] && Up(t', g, h, k) == Up(t, g, h, k)
    decreases t[h].nHeight
  {
    if k < t[h].nHeight {
      assert HasParent(t, h);
      UpGrows(t, t', g, t[h].prev.value, k);
    }
  }

  lemma AboveGrows(t: Tree, t': Tree, g: Hash, a: Hash, h: Hash)
    requires TreeOk(t, g) && TreeOk(t', g) && Grows(t, t') && h in t && Above(t, g, a, h)
    ensures h in t' && Above(t', g, a, h)
  {
    UpGrows(t, t', g, h, t[a].nHeight);
  }

  /** Every checkpoint of a run stays on the best chain for ever, and every later checkpoint
      is that one or a proper descendant of it. */
  lemma {:induction false} CheckpointsStay(vs: seq<View>, i: nat, j: nat)
    requires Run(vs) && i <= j < |vs|
    ensures SafeView(vs[i]) && SafeView(vs[j]) && vs[j].g == vs[i].g && Grows(vs[i].t, vs[j].t)
    ensures Above(vs[j].t, vs[j].g, vs[i].sync, vs[j].best)
    ensures vs[j].sync == vs[i].sync || Below(vs[j].t, vs[j].g, vs[j].sync, vs[i].sync)
    decreases j
  {
    if j == 0 {
    } else if i == j {
      assert Step(vs[j - 1], vs[j - 1 + 1]);
    } else {
      CheckpointsStay(vs, i, j - 1);
      assert Step(vs[j - 1], vs[j - 1 + 1]);
      var v, v' := vs[j - 1], vs[j];
      AboveGrows(v.t, v'.t, v.g, vs[i].sync, v.sync);
      AboveTrans(v'.t, v'.g, vs[i].sync, v.sync, v'.sync);
      AboveTrans(v'.t, v'.g, vs[i].sync, v'.sync, v'.best);
    }
  }

  /** Every block indexed during a run is a proper descendant of every checkpoint the run had
      before it. */
  lemma {:induction false} NewBlocksExtend(vs: seq<View>, i: nat, j: nat, h: Hash)
    requires Run(vs) && i <= j < |vs| && h in vs[j].t && h !in vs[i].t
    ensures SafeView(vs[j]) && Below(vs[j].t, vs[j].g, h, vs[i].sync)
    decreases j
  {
    CheckpointsStay(vs, i, j - 1);
    assert Step(vs[j - 1], vs[j - 1 + 1]);
    var v, v' := vs[j - 1], vs[j];
    if h in v.t {
      NewBlocksExtend(vs, i, j - 1, h);
      AboveGrows(v.t, v'.t, v.g, vs[i].sync, h);
    } else {
      assert NewIsBelow(v, v', h);
      AboveGrows(v.t, v'.t, v.g, vs[i].sync, v.sync);
      BelowTrans(v'.t, v'.g, vs[i].sync, v.sync, h);
    }
  }

  lemma StepTrans(u: View, v: View, w: View)
    requires SafeView(u) && Step(u, v) && Step(v, w) && w.t == v.t
    ensures Step(u, w)
  {
    if v.sync != u.sync && w.sync != v.sync { AboveTrans(w.t, w.g, u.sync, v.sync, w.sync); }
    forall h ensures NewIsBelow(u, w, h) { assert NewIsBelow(u, v, h); }
  }

  /** The checkpoint `h` is on the best chain, or the chain can be switched to it. */
  ghost predicate Follows(s: Store, env: Env, db: Index, pnext: map<Hash, Hash>, best: Hash, h: Hash)
    requires TreeOk(s.index, s.genesis) && best in s.index && h in s.index
  {
    IsInMainChain(pnext, best, h) || (h !in env.unreadable && Adopts(s, env, db, best, h))
  }

  lemma StepNone(v: View)
    requires SafeView(v)
    ensures Step(v, v)
  {}

  /** Whatever links are missing, a block of the main chain is above the best one. */
  lemma OnBestChain(s: Store, db: Index, pnext: map<Hash, Hash>, dbBest: Hash, best: Hash, mark: Option<Hash>, h: Hash)
    requires GoodState(s, db, pnext, dbBest, best, mark) && IsInMainChain(pnext, best, h)
    ensures Above(s.index, s.genesis, h, best)
  {
    InMainChainIsAbove(s.index, s.genesis, pnext, best, h);
  }

  // ---------------------------------------------------------------- the protocol

  class SyncState {
    const chain: ChainState
    var hashSync: Hash                // hashSyncCheckpoint
    var hashPending: Option<Hash>     // hashPendingCheckpoint, None for 0
    var hashInvalid: Option<Hash>     // hashInvalidCheckpoint

    /** The checkpoint is an indexed block of the best chain. */
    ghost predicate Safe()
      reads this, chain
    {
      chain.Valid() && SafeView(Now())
    }

    ghost function Now(): View
      reads this, chain
    {
      View(chain.store.index, chain.store.genesis, chain.best, hashSync)
    }

    /** Block `h` would become the current checkpoint if it could be written. */
    ghost predicate Takes(h: Hash, env: Env)
      reads this, chain
    {
      && chain.Valid() && h in chain.store.index && Below(chain.store.index, chain.store.genesis, h, hashSync)
      && Follows(chain.store, env, chain.txdb, chain.pnext, chain.best, h)
    }

    /** ... and the node switches to its chain first. */
    ghost predicate Switches(h: Hash, env: Env)
      reads this, chain
    {
      Takes(h, env) && !IsInMainChain(chain.pnext, chain.best, h)
    }

    /** Block `h` is known and does not extend the current checkpoint. */
    ghost predicate Refused(h: Hash)
      reads this, chain
    {
      chain.Valid() && h in chain.store.index && !Below(chain.store.index, chain.store.genesis, h, hashSync)
    }

    /** Start from the checkpoint that ResetSyncCheckpoint leaves: a block of the best chain. */
    constructor (chain: ChainState, h: Hash)
      requires chain.Valid() && Above(chain.store.index, chain.store.genesis, h, chain.best)
      ensures this.chain == chain && hashSync == h && hashPending.None? && hashInvalid.None?
      ensures Safe()
    {
      this.chain := chain;
      hashSync := h;
      hashPending, hashInvalid := None, None;
    }

    /** Make a validated checkpoint the current one, switching to its chain first if it is not
        on the best chain. */
    method Advance(h: Hash, env: Env, writable: bool) returns (ok: bool)
      requires Safe() && h in chain.store.index
      requires Below(chain.store.index, chain.store.genesis, h, hashSync)
      modifies this`hashSync, this`hashInvalid
      modifies chain`txdb, chain`dbBest, chain`pnext, chain`supply, chain`best, chain`fbbhLast
      ensures Safe() && Step(old(Now()), Now())
      ensures ok <==> old(Takes(h, env)) && writable
      ensures hashSync == if ok then h else old(hashSync)
      ensures chain.best == if old(Switches(h, env)) then h else old(chain.best)
      ensures old(Takes(h, env)) || h in env.unreadable ==> hashInvalid == old(hashInvalid)
      ensures !old(Takes(h, env)) && h !in env.unreadable ==> hashInvalid == Some(h)
    {
      hide Adopts, AdoptOk, FinishOk, GoodState, Synced, Moved;
      assert chain.Valid();
      if !IsInMainChain(chain.pnext, chain.best, h) {
        if h in env.unreadable {
          return false;
        }
        ok := chain.SetBestChain(h, env);
        if !ok {
          hashInvalid := Some(h);
          return;
        }
      } else {
        OnBestChain(chain.store, chain.txdb, chain.pnext, chain.dbBest, chain.best, chain.fbbhLast, h);
      }
      ok := writable;
      if ok {
        hashSync := h;
      }
    }

    /** AcceptPendingSyncCheckpoint. */
    method AcceptPending(env: Env, writable: bool) returns (ok: bool)
      requires Safe()
      modifies this, chain`txdb, chain`dbBest, chain`pnext, chain`supply, chain`best, chain`fbbhLast
      ensures Safe() && Step(old(Now()), Now())
      ensures ok <==> old(hashPending.Some? && Takes(hashPending.value, env)) && writable
      ensures ok ==> old(hashPending) == Some(hashSync) && hashPending.None?
      ensures !ok ==> hashSync == old(hashSync)
      ensures hashPending == if ok || old(hashPending.Some? && Refused(hashPending.value)) then None
        else old(hashPending)
      ensures chain.best == if old(hashPending.Some? && Switches(hashPending.value, env)) then old(hashPending.value)
        else old(chain.best)
    {
      hide Adopts, GoodState, Follows, Step;
      if hashPending.None? || hashPending.value !in chain.store.index {
        StepNone(Now());
        return false;
      }
      var valid, invalid := ValidateSyncCheckpoint(chain.store.index, chain.store.genesis, hashSync, hashPending.value);
      if invalid { hashInvalid := hashPending; }
      if !valid {
        StepNone(Now());
        hashPending := None;
        return false;
      }
      ok := Advance(hashPending.value, env, writable);
      if ok { hashPending := None; }
    }

    /** ProcessSyncCheckpoint. */
    method ProcessSyncCheckpoint(h: Hash, signed: bool, env: Env, writable: bool) returns (ok: bool)
      requires Safe()
      modifies this, chain`txdb, chain`dbBest, chain`pnext, chain`supply, chain`best, chain`fbbhLast
      ensures Safe() && Step(old(Now()), Now())
      ensures ok <==> signed && old(Takes(h, env)) && writable
      ensures hashSync == if ok then h else old(hashSync)
      ensures hashPending == if ok then None else if signed && h !in chain.store.index then Some(h)
        else old(hashPending)
      ensures chain.best == if signed && old(Switches(h, env)) then h else old(chain.best)
      ensures !signed ==> hashInvalid == old(hashInvalid)
    {
      hide Adopts, GoodState, Follows, Step;
      if !signed {
        StepNone(Now());
        return false;
      }
      if h !in chain.store.index {
        StepNone(Now());
        hashPending := Some(h);
        return false;
      }
      var valid, invalid := ValidateSyncCheckpoint(chain.store.index, chain.store.genesis, hashSync, h);
      if invalid { hashInvalid := Some(h); }
      if !valid {
        StepNone(Now());
        return false;
      }
      ok := Advance(h, env, writable);
      if ok { hashPending := None; }
    }

    /** The part of AcceptBlock before AcceptPendingSyncCheckpoint, in STRICT mode. */
    method AcceptChecked(b: Block, file: nat, blockPos: nat, env: Env) returns (ok: bool)
      requires Safe() && Storable(chain.store.disk, b, file, blockPos)
      modifies chain
      ensures Safe() && Step(old(Now()), Now())
      ensures chain.store == old(
        if b.hashPrev in chain.store.index && Above(chain.store.index, chain.store.genesis, hashSync, b.hashPrev)
        then Indexed(chain.store, env, b, file, blockPos) else chain.store)
      ensures ok ==> b.hash in chain.store.index && b.hash !in old(chain.store.index)
      ensures b.hash in chain.store.index && b.hash !in old(chain.store.index) ==>
        (ok <==> (HasMoreTrust(chain.store, old(chain.best), b.hash) ==>
          Adopts(chain.store, env, old(chain.txdb), old(chain.best), b.hash)))
      ensures chain.best == if ok && HasMoreTrust(chain.store, old(chain.best), b.hash) then b.hash else old(chain.best)
      ensures ok ==> Below(chain.store.index, chain.store.genesis, b.hash, hashSync)
    {
      hide Adopts, GoodState, CheckBlock, Storable, AdoptOk, FinishOk, Synced, Written, Moved;
      hide Required, Heaviest, Retarget.BlockTrust, Retarget.NextRequired;
      if b.hash in chain.store.index || b.hashPrev !in chain.store.index {
        return false;
      }
      ghost var t, g := chain.store.index, chain.store.genesis;
      ghost var node := NewNode(t, b, file, blockPos);
      ok := CheckSync(chain.store.index, g, hashSync, b.hash, b.hashPrev);
      if !ok {
        return;
      }
      AboveExtend(t, g, b.hash, node, hashSync, chain.best);
      AboveExtend(t, g, b.hash, node, hashSync, b.hashPrev);
      assert Below(t[b.hash := node], g, b.hash, hashSync) by {
        ParentAbove(t[b.hash := node], g, b.hash);
        AboveTrans(t[b.hash := node], g, hashSync, b.hashPrev, b.hash);
      }
      ok := chain.AcceptBlock(b, file, blockPos, env);
    }

    /** AcceptBlock in STRICT mode; `after` is the environment of its last step. */
    method AcceptBlock(b: Block, file: nat, blockPos: nat, env: Env, after: Env, writable: bool)
      returns (ok: bool)
      requires Safe() && Storable(chain.store.disk, b, file, blockPos)
      modifies this, chain
      ensures Safe() && Step(old(Now()), Now())
      ensures chain.store == old(
        if b.hashPrev in chain.store.index && Above(chain.store.index, chain.store.genesis, hashSync, b.hashPrev)
        then Indexed(chain.store, env, b, file, blockPos) else chain.store)
      ensures ok ==> b.hash in chain.store.index && b.hash !in old(chain.store.index)
      ensures b.hash in chain.store.index && b.hash !in old(chain.store.index) ==>
        (ok <==> (HasMoreTrust(chain.store, old(chain.best), b.hash) ==>
          Adopts(chain.store, env, old(chain.txdb), old(chain.best), b.hash)))
      // the pending checkpoint was looked at: it was taken, dropped, or still waits and is not refused
      ensures hashSync != old(hashSync) ==> ok && old(hashPending) == Some(hashSync) && hashPending.None?
      ensures !ok ==> hashSync == old(hashSync) && hashPending == old(hashPending)
      ensures ok && hashPending.Some? ==> hashPending == old(hashPending) && !Refused(hashPending.value)
      // a pending checkpoint that arrives and becomes the best block is taken
      ensures ok && writable && old(hashPending) == Some(b.hash) && HasMoreTrust(chain.store, old(chain.best), b.hash)
        ==> hashSync == b.hash && chain.best == b.hash
    {
      hide Adopts, GoodState, Storable, Step, SafeView, Indexed;
      ghost var u := Now();
      SafeHas();
      ok := AcceptChecked(b, file, blockPos, env);
      if ok {
        ghost var v := Now();
        var _ := AcceptPending(after, writable);
        StepTrans(u, v, Now());
      }
    }

    lemma SafeHas()
      requires Safe()
      ensures SafeView(Now())
    {}
  }

  // ---------------------------------------------------------------- every run of the node

  /** What can happen to the node: a checkpoint message, a block, a look at the pending checkpoint. */
  datatype Event =
    | Message(h: Hash, signed: bool, env: Env, writable: bool)
    | Received(b: Block, file: nat, blockPos: nat, env: Env, after: Env, writable: bool)
    | Look(env: Env, writable: bool)

  /** Let one thing happen. A block whose transactions would go to used places or break the hash
      model cannot be received. */
  method Handle(sync: SyncState, e: Event)
    requires sync.Safe()
    modifies sync, sync.chain
    ensures sync.Safe() && Step(old(sync.Now()), sync.Now())
  {
    hide Adopts, GoodState, Step, Storable, Indexed, Follows;
    match e
    case Message(h, signed, env, writable) =>
      var _ := sync.ProcessSyncCheckpoint(h, signed, env, writable);
    case Look(env, writable) =>
      var _ := sync.AcceptPending(env, writable);
    case Received(b, file, blockPos, env, after, writable) =>
      if Storable(sync.chain.store.disk, b, file, blockPos) {
        var _ := sync.AcceptBlock(b, file, blockPos, env, after, writable);
      } else {
        StepNone(sync.Now());
      }
  }

  /** Whatever happens, in whatever order and whether or not the database follows, what the node
      shows is a run: `CheckpointsStay` and `NewBlocksExtend` hold of it. */
  method HandleAll(sync: SyncState, es: seq<Event>) returns (ghost vs: seq<View>)
    requires sync.Safe()
    modifies sync, sync.chain
    ensures sync.Safe() && Run(vs)
    ensures |vs| == |es| + 1 && vs[0] == old(sync.Now()) && vs[|es|] == sync.Now()
  {
    hide GoodState, Step;
    vs := [sync.Now()];
    for i := 0 to |es|
      invariant sync.Safe() && Run(vs)
      invariant |vs| == i + 1 && vs[0] == old(sync.Now()) && vs[i] == sync.Now()
    {
      Handle(sync, es[i]);
      RunSnoc(vs, sync.Now());
      vs := vs + [sync.Now()];
    }
  }

  lemma RunSnoc(vs: seq<View>, v: View)
    requires Run(vs) && Step(vs[|vs| - 1], v)
    ensures Run(vs + [v])
  {
    hide Step;
    var ws := vs + [v];
    forall i | 0 <= i < |ws| - 1 ensures Step(ws[i], ws[i + 1]) {
      if i < |vs| - 1 { assert Step(vs[i], vs[i + 1]); }
    }
  }
}
