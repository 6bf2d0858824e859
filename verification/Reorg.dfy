/** Switching between branches of the block tree, on the values that change: transaction
    index, money supplies and forward links (src/main.cpp: Reorganize, SetBestChainInner,
    SetBestChain). The methods work from any well-formed index; what they do is then read
    off for an index that is the fold of the best chain. */
module Reorg {
  import opened Basics
  import opened Transactions
  import opened Marks
  import opened Supply
  import opened Inputs
  import opened Blocks
  import opened BlockTree
  import opened ChainFold
  import Mint

  /** Block tree with everything stored for it. */
  datatype Store = Store(index: Tree, genesis: Hash, disk: Disk) {
    ghost predicate Ok() {
      && TreeOk(index, genesis) && NodesOk(index, genesis, disk)
      && GoodDisk(disk) && DiskModel(disk)
    }
  }

  /** Everything outside the node that decides whether an attempt succeeds. */
  datatype Env = Env(
    rules: Hash -> BlockRules,
    unreadable: set<Hash>,      // blocks that ReadFromDisk fails for
    uncommitted: set<Hash>,     // tips that the database fails to commit
    pool: map<Hash, Tx>)

  // ---------------------------------------------------------------- when a step succeeds

  /** ConnectBlock accepts block `h` on top of `db`. */
  ghost predicate Accepts(s: Store, env: Env, db: Index, h: Hash)
    requires h in s.index
  {
    BlockOk(env.rules(h), db, s.disk, env.pool, s.index[h].block, Ts(s.index[h]))
  }

  /** Block `h` can be read and connected on top of `db`. */
  ghost predicate Joins(s: Store, env: Env, db: Index, h: Hash)
    requires h in s.index
  {
    h !in env.unreadable && Accepts(s, env, db, h)
  }

  /** ... and the result committed. */
  ghost predicate Attaches(s: Store, env: Env, db: Index, h: Hash)
    requires h in s.index
  {
    Joins(s, env, db, h) && h !in env.uncommitted
  }

  ghost predicate Known(s: Store, v: seq<Hash>) { forall i :: 0 <= i < |v| ==> v[i] in s.index }

  ghost function After(s: Store, db: Index, h: Hash): Index
    requires h in s.index
  {
    ConnectAll(db, Ts(s.index[h]))
  }

  /** `db` with the blocks `v` connected one after the other. */
  ghost function Applied(s: Store, db: Index, v: seq<Hash>): Index
    requires Known(s, v)
  {
    if v == [] then db else After(s, Applied(s, db, v[..|v| - 1]), v[|v| - 1])
  }

  ghost predicate Applies(s: Store, env: Env, db: Index, v: seq<Hash>)
    requires Known(s, v)
  {
    v == [] || (
      var init, h := v[..|v| - 1], v[|v| - 1];
      Applies(s, env, db, init) && Joins(s, env, Applied(s, db, init), h))
  }

  /** `db` with the blocks `v` disconnected one after the other. */
  ghost function Reverted(s: Store, db: Index, v: seq<Hash>): Index
    requires Known(s, v)
  {
    if v == [] then db else DisconnectAll(Reverted(s, db, v[..|v| - 1]), Ts(s.index[v[|v| - 1]]))
  }

  ghost predicate Reverts(s: Store, env: Env, db: Index, v: seq<Hash>)
    requires Known(s, v)
  {
    v == [] || (
      var init, h := v[..|v| - 1], v[|v| - 1];
      Reverts(s, env, db, init) && h !in env.unreadable && CanDisconnect(Reverted(s, db, init), Ts(s.index[h])))
  }

  /** How many of the blocks `v` can be attached, each on top of those before it. */
  ghost function Climb(s: Store, env: Env, db: Index, v: seq<Hash>): (k: nat)
    requires Known(s, v)
    ensures k <= |v|
    decreases |v|
  {
    if v == [] || !Attaches(s, env, db, v[0]) then 0 else 1 + Climb(s, env, After(s, db, v[0]), v[1..])
  }

  lemma PathKnown(s: Store, f: Hash, h: Hash)
    requires TreeOk(s.index, s.genesis) && h in s.index && Above(s.index, s.genesis, f, h)
    ensures Known(s, PathUp(s.index, s.genesis, f, h)) && Known(s, PathDown(s.index, s.genesis, h, f))
  {}

  /** The index that Reorganize leaves, and when it succeeds. */
  ghost function Switched(s: Store, db: Index, best: Hash, h: Hash): Index
    requires TreeOk(s.index, s.genesis) && best in s.index && h in s.index
  {
    var f := Fork(s.index, s.genesis, best, h);
    PathKnown(s, f, best); PathKnown(s, f, h);
    Applied(s, Reverted(s, db, PathDown(s.index, s.genesis, best, f)), PathUp(s.index, s.genesis, f, h))
  }

  ghost predicate CanSwitch(s: Store, env: Env, db: Index, best: Hash, h: Hash)
    requires TreeOk(s.index, s.genesis) && best in s.index && h in s.index
  {
    var f := Fork(s.index, s.genesis, best, h);
    PathKnown(s, f, best); PathKnown(s, f, h);
    var down, up := PathDown(s.index, s.genesis, best, f), PathUp(s.index, s.genesis, f, h);
    && Reverts(s, env, db, down)
    && Applies(s, env, Reverted(s, db, down), up)
    && h !in env.uncommitted
  }

  // ---------------------------------------------------------------- the database and the supplies

  /** The database stands at block `h`, and the chain up to there connects. */
  ghost predicate StandsAt(s: Store, db: Index, h: Hash) {
    && TreeOk(s.index, s.genesis) && h in s.index
    && ChainOk(s.index, s.genesis, h) && db == FoldTo(s.index, s.genesis, h)
  }

  /** nMoneySupply of `h` is the total value of the unspent outputs after `h`. */
  ghost predicate SupplyAt(s: Store, supply: map<Hash, int>, h: Hash)
    requires TreeOk(s.index, s.genesis) && h in s.index
  {
    var idx := FoldTo(s.index, s.genesis, h);
    h in supply && WellFormed(idx, s.disk) && supply[h] == Total(idx, s.disk)
  }

  ghost predicate SupplyTo(s: Store, supply: map<Hash, int>, tip: Hash)
    requires TreeOk(s.index, s.genesis) && tip in s.index
  {
    forall a {:trigger SupplyAt(s, supply, a)} ::
      a in s.index && Above(s.index, s.genesis, a, tip) ==> SupplyAt(s, supply, a)
  }

  lemma SupplyBelow(s: Store, supply: map<Hash, int>, tip: Hash, a: Hash)
    requires TreeOk(s.index, s.genesis) && tip in s.index && SupplyTo(s, supply, tip)
    requires Above(s.index, s.genesis, a, tip)
    ensures SupplyTo(s, supply, a)
  {
    forall b | b in s.index && Above(s.index, s.genesis, b, a) ensures SupplyAt(s, supply, b) {
      AboveTrans(s.index, s.genesis, b, a, tip);
    }
  }

  lemma SupplyOn(s: Store, supply: map<Hash, int>, h: Hash, v: int)
    requires TreeOk(s.index, s.genesis) && h in s.index && h != s.genesis && HasParent(s.index, h)
    requires SupplyTo(s, supply, s.index[h].prev.value) && SupplyAt(s, supply[h := v], h)
    ensures SupplyTo(s, supply[h := v], h)
  {
    forall b | b in s.index && Above(s.index, s.genesis, b, h) ensures SupplyAt(s, supply[h := v], b) {
      if b != h {
        assert SupplyAt(s, supply, b);
      }
    }
  }

  lemma SupplyBeside(s: Store, supply: map<Hash, int>, tip: Hash, h: Hash, v: int)
    requires TreeOk(s.index, s.genesis) && tip in s.index && SupplyTo(s, supply, tip)
    requires !Above(s.index, s.genesis, h, tip)
    ensures SupplyTo(s, supply[h := v], tip)
  {
    forall b | b in s.index && Above(s.index, s.genesis, b, tip) ensures SupplyAt(s, supply[h := v], b) {
      assert SupplyAt(s, supply, b);
    }
  }

  /** nMoneySupply of a block that was never connected is 0. */
  function SupplyOf(supply: map<Hash, int>, h: Hash): int { if h in supply then supply[h] else 0 }

  // ---------------------------------------------------------------- connecting one block

  /** Block `b` was connected: `db` is the index with the block folded in, `nMoneySupply`
      moved with the total value of its unspent outputs, a proof-of-stake block created no more
      than its reward, and a proof-of-work block without coinstakes no more than its subsidy. */
  ghost predicate Connected(r: BlockRules, db0: Index, disk: Disk, b: Block, ts: seq<Stored>, prevSupply: int,
    db: Index, nMoneySupply: int)
    requires WellFormed(db0, disk)
  {
    && Connectable(db0, ts) && db == ConnectAll(db0, ts) && WellFormed(db, disk)
    && nMoneySupply - prevSupply == Total(db, disk) - Total(db0, disk)
    && (b.IsProofOfStake() ==> r.coinAge.Some? && nMoneySupply <= prevSupply + r.posSubsidy(r.coinAge.value))
    && (!b.IsProofOfStake() && Mint.NoStake(b) ==> nMoneySupply <= prevSupply + r.powSubsidy)
  }

  lemma AcceptedMeans(r: BlockRules, db: Index, disk: Disk, pool: map<Hash, Tx>, b: Block, ts: seq<Stored>,
    prevSupply: int)
    requires WellFormed(db, disk) && GoodDisk(disk) && OnDisk(disk, ts) && Places(b, ts)
    requires BlockOk(r, db, disk, pool, b, ts)
    ensures Connected(r, db, disk, b, ts, prevSupply, ConnectAll(db, ts),
      prevSupply + BlockValueOut(ts) - BlockValueIn(db, disk, ts))
  {
    BlockOkConnectable(r, db, disk, pool, b, ts);
    TotalConnectAll(db, disk, ts);
    if b.IsProofOfStake() {
      StakeBlockMint(r, db, disk, pool, b, ts);
    } else {
      Mint.WorkBlockMint(r, db, disk, pool, b, ts);
    }
  }

  /** ConnectBlock for an indexed block. */
  method ConnectNode(r: BlockRules, db0: Index, disk: Disk, pool: map<Hash, Tx>, node: Node, prevSupply: int)
    returns (ok: bool, db: Index, nMoneySupply: int)
    requires WellFormed(db0, disk) && GoodDisk(disk) && OnDisk(disk, Ts(node))
    ensures ok <==> BlockOk(r, db0, disk, pool, node.block, Ts(node))
    ensures ok ==> Connected(r, db0, disk, node.block, Ts(node), prevSupply, db, nMoneySupply)
  {
    PlacedPlaces(node.block, node.file, node.blockPos);
    ok, db, nMoneySupply := ConnectBlock(r, db0, disk, pool, node.block, Ts(node), prevSupply);
    if ok {
      AcceptedMeans(r, db0, disk, pool, node.block, Ts(node), prevSupply);
    }
  }

  /** The supply recorded for `h` on top of `db0`: it moves with the total of the unspent
      outputs, a proof-of-stake block raises it by at most its reward, and a proof-of-work block
      without coinstakes by at most its subsidy. */
  ghost predicate Recorded(s: Store, env: Env, db0: Index, supply0: map<Hash, int>, h: Hash, supply: map<Hash, int>)
    requires h in s.index && HasParent(s.index, h) && WellFormed(db0, s.disk)
  {
    var before := SupplyOf(supply0, s.index[h].prev.value);
    && h in supply && supply == supply0[h := supply[h]]
    && WellFormed(After(s, db0, h), s.disk)
    && supply[h] - before == Total(After(s, db0, h), s.disk) - Total(db0, s.disk)
    && (s.index[h].block.IsProofOfStake() ==>
      env.rules(h).coinAge.Some? && supply[h] <= before + env.rules(h).posSubsidy(env.rules(h).coinAge.value))
    && (!s.index[h].block.IsProofOfStake() && Mint.NoStake(s.index[h].block) ==>
      supply[h] <= before + env.rules(h).powSubsidy)
  }

  /** Connect block `h` on top of any well-formed index. */
  method ConnectOn(s: Store, db0: Index, supply0: map<Hash, int>, h: Hash, env: Env)
    returns (ok: bool, db: Index, supply: map<Hash, int>)
    requires s.Ok() && h in s.index && h != s.genesis && HasParent(s.index, h) && WellFormed(db0, s.disk)
    ensures ok <==> Accepts(s, env, db0, h)
    ensures ok ==> db == After(s, db0, h) && Recorded(s, env, db0, supply0, h, supply)
    ensures !ok ==> db == db0 && supply == supply0
  {
    var node := s.index[h];
    assert Accepted(s.index, s.disk, h);
    var nMoneySupply;
    supply := supply0;
    ok, db, nMoneySupply := ConnectNode(env.rules(h), db0, s.disk, env.pool, node, SupplyOf(supply0, node.prev.value));
    if ok {
      supply := supply[h := nMoneySupply];
    } else {
      db := db0;
    }
  }

  lemma AcceptsConnectable(s: Store, env: Env, db: Index, h: Hash)
    requires s.Ok() && h in s.index && h != s.genesis && WellFormed(db, s.disk) && Accepts(s, env, db, h)
    ensures Connectable(db, Ts(s.index[h])) && WellFormed(After(s, db, h), s.disk)
  {
    var node := s.index[h];
    assert Accepted(s.index, s.disk, h);
    PlacedPlaces(node.block, node.file, node.blockPos);
    AcceptedMeans(env.rules(h), db, s.disk, env.pool, node.block, Ts(node), 0);
  }

  /** A block accepted on top of its parent's fold leaves its own. */
  lemma StandsOn(s: Store, env: Env, db: Index, h: Hash)
    requires s.Ok() && h in s.index && h != s.genesis && HasParent(s.index, h)
    requires StandsAt(s, db, s.index[h].prev.value) && Accepts(s, env, db, h)
    ensures StandsAt(s, After(s, db, h), h)
  {
    FoldToMeans(s.index, s.genesis, s.disk, s.index[h].prev.value);
    AcceptsConnectable(s, env, db, h);
    assert Connects(s.index, s.genesis, h);
  }

  lemma RecordedIsTotal(s: Store, env: Env, db: Index, supply0: map<Hash, int>, h: Hash, supply: map<Hash, int>)
    requires s.Ok() && h in s.index && h != s.genesis && HasParent(s.index, h) && WellFormed(db, s.disk)
    requires StandsAt(s, db, s.index[h].prev.value) && SupplyTo(s, supply0, s.index[h].prev.value)
    requires Recorded(s, env, db, supply0, h, supply) && Accepts(s, env, db, h)
    ensures SupplyTo(s, supply, h)
  {
    hide BlockOk, ConnectAll, Placed, Total;
    StandsOn(s, env, db, h);
    assert SupplyAt(s, supply0, s.index[h].prev.value);
    SupplyOn(s, supply0, h, supply[h]);
  }

  // ---------------------------------------------------------------- disconnecting

  lemma {:induction false} DisconnectedWellFormed(idx: Index, disk: Disk, ts: seq<Stored>)
    requires WellFormed(idx, disk)
    ensures WellFormed(DisconnectAll(idx, ts), disk)
    decreases |ts|
  {
    if ts != [] {
      DisconnectedWellFormed(Disconnect(idx, ts[|ts| - 1].tx), disk, ts[..|ts| - 1]);
    }
  }

  /** Disconnect the blocks `v` one after the other. */
  method DisconnectDown(s: Store, db0: Index, v: seq<Hash>, env: Env) returns (ok: bool, db: Index)
    requires Known(s, v) && WellFormed(db0, s.disk)
    ensures ok <==> Reverts(s, env, db0, v)
    ensures ok ==> db == Reverted(s, db0, v) && WellFormed(db, s.disk)
  {
    hide BlockOk, ConnectAll, Placed, CanDisconnect, DisconnectAll;
    db := db0;
    for i := 0 to |v|
      invariant Reverts(s, env, db0, v[..i]) && db == Reverted(s, db0, v[..i]) && WellFormed(db, s.disk)
    {
      assert v[..i + 1][..i] == v[..i];
      if v[i] in env.unreadable {
        RevertsPrefix(s, env, db0, v, i + 1);
        return false, db;
      }
      DisconnectedWellFormed(db, s.disk, Ts(s.index[v[i]]));
      var done;
      done, db := DisconnectBlock(db, Ts(s.index[v[i]]));
      if !done {
        RevertsPrefix(s, env, db0, v, i + 1);
        return false, db;
      }
    }
    assert v[..|v|] == v;
    ok := true;
  }

  lemma {:induction false} RevertsPrefix(s: Store, env: Env, db: Index, v: seq<Hash>, i: nat)
    requires Known(s, v) && i <= |v|
    ensures Reverts(s, env, db, v) ==> Reverts(s, env, db, v[..i])
    decreases |v|
  {
    if i < |v| {
      RevertsPrefix(s, env, db, v[..|v| - 1], i);
      assert v[..|v| - 1][..i] == v[..i];
    } else {
      assert v[..i] == v;
    }
  }

  lemma AppliedSnoc(s: Store, env: Env, db: Index, v: seq<Hash>, i: nat)
    requires Known(s, v) && i < |v|
    ensures Applied(s, db, v[..i + 1]) == After(s, Applied(s, db, v[..i]), v[i])
    ensures Applies(s, env, db, v[..i + 1])
      <==> Applies(s, env, db, v[..i]) && Joins(s, env, Applied(s, db, v[..i]), v[i])
  {
    hide BlockOk, ConnectAll, Placed;
    assert v[..i + 1][..i] == v[..i];
  }

  lemma {:induction false} AppliesPrefix(s: Store, env: Env, db: Index, v: seq<Hash>, i: nat)
    requires Known(s, v) && i <= |v|
    ensures Applies(s, env, db, v) ==> Applies(s, env, db, v[..i])
    decreases |v|
  {
    hide BlockOk, ConnectAll, Placed;
    if i < |v| {
      AppliesPrefix(s, env, db, v[..|v| - 1], i);
      assert v[..|v| - 1][..i] == v[..i];
    } else {
      assert v[..i] == v;
    }
  }

  // ---------------------------------------------------------------- connecting a branch

  /** The last block connected after `i` of them. */
  function PassedAt(v: seq<Hash>, fork: Hash, i: nat): Hash
    requires i <= |v|
  {
    if i == 0 then fork else v[i - 1]
  }

  lemma PassedAll(t: Tree, g: Hash, fork: Hash, tip: Hash, v: seq<Hash>)
    requires TreeOk(t, g) && tip in t && LeadsUp(t, g, fork, tip, v)
    ensures PassedAt(v, fork, |v|) == tip
  {
    if v != [] { UpwardStep(t, g, fork, tip, v, |v| - 1); }
  }

  /** The block to connect next. */
  lemma NextUp(s: Store, fork: Hash, tip: Hash, v: seq<Hash>, i: nat)
    requires TreeOk(s.index, s.genesis) && tip in s.index && LeadsUp(s.index, s.genesis, fork, tip, v) && i < |v|
    ensures var h := v[i];
      && h in s.index && h != s.genesis && HasParent(s.index, h) && s.index[h].prev.value == PassedAt(v, fork, i)
  {
    UpwardStep(s.index, s.genesis, fork, tip, v, i);
    assert HasParent(s.index, v[i]);
  }

  /** Database at `cur`, with the supplies right up to there and up to the tip of the other branch. */
  ghost predicate Sound(s: Store, db: Index, supply: map<Hash, int>, cur: Hash, other: Hash) {
    && StandsAt(s, db, cur) && SupplyTo(s, supply, cur)
    && other in s.index && SupplyTo(s, supply, other)
  }

  lemma SoundOn(s: Store, env: Env, db: Index, supply0: map<Hash, int>, h: Hash, supply: map<Hash, int>, other: Hash)
    requires s.Ok() && h in s.index && h != s.genesis && HasParent(s.index, h) && WellFormed(db, s.disk)
    requires Accepts(s, env, db, h) && Recorded(s, env, db, supply0, h, supply)
    requires Sound(s, db, supply0, s.index[h].prev.value, other) && !Above(s.index, s.genesis, h, other)
    ensures Sound(s, After(s, db, h), supply, h, other)
  {
    StandsOn(s, env, db, h);
    RecordedIsTotal(s, env, db, supply0, h, supply);
    SupplyBeside(s, supply0, other, h, supply[h]);
  }

  /** Read and connect one more block, on a branch that leaves the other one alone. */
  method ConnectNext(s: Store, db0: Index, supply0: map<Hash, int>, h: Hash, ghost other: Hash, env: Env)
    returns (ok: bool, db: Index, supply: map<Hash, int>)
    requires s.Ok() && h in s.index && h != s.genesis && HasParent(s.index, h) && WellFormed(db0, s.disk)
    requires other in s.index && !Above(s.index, s.genesis, h, other)
    ensures ok <==> Joins(s, env, db0, h)
    ensures ok ==> db == After(s, db0, h) && WellFormed(db, s.disk)
    ensures !ok ==> supply == supply0
    ensures ok && Sound(s, db0, supply0, s.index[h].prev.value, other) ==> Sound(s, db, supply, h, other)
  {
    ok, db, supply := false, db0, supply0;
    if h in env.unreadable {
      return;
    }
    ok, db, supply := ConnectOn(s, db0, supply0, h, env);
    if ok && Sound(s, db0, supply0, s.index[h].prev.value, other) {
      SoundOn(s, env, db0, supply0, h, supply, other);
    }
  }

  /** Connect `v`, the blocks from just above `fork` up to `tip`, one after the other. */
  method ConnectUp(s: Store, db0: Index, supply0: map<Hash, int>, fork: Hash, tip: Hash, ghost other: Hash,
    v: seq<Hash>, env: Env)
    returns (ok: bool, db: Index, supply: map<Hash, int>)
    requires s.Ok() && tip in s.index && other in s.index && WellFormed(db0, s.disk)
    requires IsFork(s.index, s.genesis, fork, other, tip) && LeadsUp(s.index, s.genesis, fork, tip, v) && Known(s, v)
    ensures ok <==> Applies(s, env, db0, v)
    ensures ok ==> db == Applied(s, db0, v) && WellFormed(db, s.disk)
    ensures Sound(s, db0, supply0, fork, other) ==> SupplyTo(s, supply, other)
    ensures ok && Sound(s, db0, supply0, fork, other) ==> Sound(s, db, supply, tip, other)
  {
    hide BlockOk, ConnectAll, Placed;
    db, supply := db0, supply0;
    ghost var sound := Sound(s, db0, supply0, fork, other);
    for i := 0 to |v|
      invariant Applies(s, env, db0, v[..i]) && db == Applied(s, db0, v[..i]) && WellFormed(db, s.disk)
      invariant sound ==> Sound(s, db, supply, PassedAt(v, fork, i), other)
    {
      AppliedSnoc(s, env, db0, v, i);
      NextUp(s, fork, tip, v, i);
      UpIs(s.index, s.genesis, other, tip, fork, v, v[i]);
      var connected;
      connected, db, supply := ConnectNext(s, db, supply, v[i], other, env);
      if !connected {
        AppliesPrefix(s, env, db0, v, i + 1);
        return false, db, supply;
      }
    }
    assert v[..|v|] == v;
    PassedAll(s.index, s.genesis, fork, tip, v);
    ok := true;
  }

  // ---------------------------------------------------------------- links

  /** Clear the links into the disconnected blocks. */
  method UnlinkDown(t: Tree, ghost g: Hash, pnext0: map<Hash, Hash>, tip: Hash, fork: Hash, v: seq<Hash>)
    returns (pnext: map<Hash, Hash>)
    requires TreeOk(t, g) && tip in t && LinksIn(t, g, pnext0, tip) && LeadsDown(t, g, tip, fork, v)
    ensures LinksIn(t, g, pnext, fork)
    ensures LinksTo(t, g, pnext0, tip) ==> LinksTo(t, g, pnext, fork)
  {
    pnext := pnext0;
    for i := 0 to |v|
      invariant LinksIn(t, g, pnext, Up(t, g, tip, t[tip].nHeight - i))
      invariant LinksTo(t, g, pnext0, tip) ==> LinksTo(t, g, pnext, Up(t, g, tip, t[tip].nHeight - i))
    {
      UpStep(t, g, tip, t[tip].nHeight - i);
      LinksInBack(t, g, pnext, v[i]);
      if LinksTo(t, g, pnext, v[i]) { LinksBack(t, g, pnext, v[i]); }
      pnext := pnext - {t[v[i]].prev.value};
    }
  }

  /** Set the links into the connected blocks. */
  method LinkUp(t: Tree, ghost g: Hash, pnext0: map<Hash, Hash>, fork: Hash, tip: Hash, v: seq<Hash>)
    returns (pnext: map<Hash, Hash>)
    requires TreeOk(t, g) && tip in t && LeadsUp(t, g, fork, tip, v) && LinksIn(t, g, pnext0, fork)
    ensures LinksIn(t, g, pnext, tip)
    ensures LinksTo(t, g, pnext0, fork) ==> LinksTo(t, g, pnext, tip)
  {
    pnext := pnext0;
    for i := 0 to |v|
      invariant LinksIn(t, g, pnext, Up(t, g, tip, t[fork].nHeight + i))
      invariant LinksTo(t, g, pnext0, fork) ==> LinksTo(t, g, pnext, Up(t, g, tip, t[fork].nHeight + i))
    {
      UpStep(t, g, tip, t[fork].nHeight + i + 1);
      LinksInOn(t, g, pnext, v[i]);
      if LinksTo(t, g, pnext, t[v[i]].prev.value) { LinksOn(t, g, pnext, v[i]); }
      pnext := pnext[t[v[i]].prev.value := v[i]];
    }
  }

  /** Database, money supply and forward links all describe the chain ending in `tip`. */
  ghost predicate Synced(s: Store, db: Index, supply: map<Hash, int>, pnext: map<Hash, Hash>, tip: Hash) {
    && StandsAt(s, db, tip)
    && SupplyTo(s, supply, tip)
    && LinksTo(s.index, s.genesis, pnext, tip)
  }

  // ---------------------------------------------------------------- Reorganize

  lemma SoundAtFork(s: Store, env: Env, db: Index, supply: map<Hash, int>, best: Hash, fork: Hash, v: seq<Hash>)
    requires s.Ok() && StandsAt(s, db, best) && SupplyTo(s, supply, best)
    requires LeadsDown(s.index, s.genesis, best, fork, v) && Known(s, v)
    ensures Sound(s, Reverted(s, db, v), supply, fork, best)
  {
    RevertedStands(s, env, db, best, fork, v, |v|);
    assert v[..|v|] == v;
    SupplyBelow(s, supply, best, fork);
  }

  lemma RevertedSnoc(s: Store, env: Env, db: Index, v: seq<Hash>, i: nat)
    requires Known(s, v) && i < |v|
    ensures Reverted(s, db, v[..i + 1]) == DisconnectAll(Reverted(s, db, v[..i]), Ts(s.index[v[i]]))
    ensures Reverts(s, env, db, v[..i + 1])
       <==> Reverts(s, env, db, v[..i]) && v[i] !in env.unreadable &&
            CanDisconnect(Reverted(s, db, v[..i]), Ts(s.index[v[i]]))
  {
    assert v[..i + 1][..i] == v[..i];
  }

  lemma StandsBack(s: Store, db: Index, h: Hash)
    requires s.Ok() && StandsAt(s, db, h) && h != s.genesis
    ensures HasParent(s.index, h) && CanDisconnect(db, Ts(s.index[h]))
    ensures StandsAt(s, DisconnectAll(db, Ts(s.index[h])), s.index[h].prev.value)
  {
    TipUndo(s.index, s.genesis, s.disk, h);
  }

  predicate Readable(env: Env, v: seq<Hash>, i: nat)
    requires i <= |v|
  {
    i == 0 || (Readable(env, v, i - 1) && v[i - 1] !in env.unreadable)
  }

  lemma RevertedStep(s: Store, env: Env, db: Index, best: Hash, fork: Hash, v: seq<Hash>, i: nat)
    requires s.Ok() && best in s.index && LeadsDown(s.index, s.genesis, best, fork, v) && Known(s, v) && i < |v|
    requires StandsAt(s, Reverted(s, db, v[..i]), v[i])
    ensures StandsAt(s, Reverted(s, db, v[..i + 1]), StopAt(v, fork, i + 1))
    ensures Reverts(s, env, db, v[..i + 1]) <==> Reverts(s, env, db, v[..i]) && v[i] !in env.unreadable
  {
    DownStep(s.index, s.genesis, best, fork, v, i);
    StandsBack(s, Reverted(s, db, v[..i]), v[i]);
    RevertedSnoc(s, env, db, v, i);
  }

  /** From the fold of a chain, disconnecting never fails but for blocks that cannot be read. */
  lemma {:induction false} RevertedStands(s: Store, env: Env, db: Index, best: Hash, fork: Hash, v: seq<Hash>, i: nat)
    requires s.Ok() && StandsAt(s, db, best) && LeadsDown(s.index, s.genesis, best, fork, v) && Known(s, v) && i <= |v|
    ensures StandsAt(s, Reverted(s, db, v[..i]), StopAt(v, fork, i))
    ensures Reverts(s, env, db, v[..i]) <==> Readable(env, v, i)
  {
    hide BlockOk, ConnectAll, Placed;
    if i == 0 {
      assert v[..0] == [];
      DownStart(s.index, s.genesis, best, fork, v);
    } else {
      RevertedStands(s, env, db, best, fork, v, i - 1);
      RevertedStep(s, env, db, best, fork, v, i - 1);
    }
  }

  /** Reorganize, on the values it changes. */
  method Switch(s: Store, db0: Index, supply0: map<Hash, int>, pnext0: map<Hash, Hash>, best: Hash, h: Hash, env: Env)
    returns (ok: bool, db: Index, supply: map<Hash, int>, pnext: map<Hash, Hash>)
    requires s.Ok() && h in s.index && best in s.index
    requires WellFormed(db0, s.disk) && LinksIn(s.index, s.genesis, pnext0, best)
    ensures ok <==> CanSwitch(s, env, db0, best, h)
    ensures ok ==> db == Switched(s, db0, best, h) && WellFormed(db, s.disk) && LinksIn(s.index, s.genesis, pnext, h)
    ensures !ok ==> db == db0 && pnext == pnext0
    ensures Synced(s, db0, supply0, pnext0, best) ==> Synced(s, db, supply, pnext, if ok then h else best)
  {
    hide BlockOk, ConnectAll, Placed;
    db, supply, pnext := db0, supply0, pnext0;
    var pfork := FindFork(s.index, s.genesis, best, h);
    ForkUnique(s.index, s.genesis, pfork, best, h);
    PathKnown(s, pfork, best);
    PathKnown(s, pfork, h);
    var vDisconnect := ListDown(s.index, s.genesis, best, pfork);
    var vConnect := ListUp(s.index, s.genesis, h, pfork);
    assert vDisconnect == PathDown(s.index, s.genesis, best, pfork);
    assert vConnect == PathUp(s.index, s.genesis, pfork, h);
    var db1;
    ok, db1 := DisconnectDown(s, db, vDisconnect, env);
    if !ok {
      return;
    }
    if Synced(s, db0, supply0, pnext0, best) {
      SoundAtFork(s, env, db0, supply0, best, pfork, vDisconnect);
    }
    ok, db1, supply := ConnectUp(s, db1, supply, pfork, h, best, vConnect, env);
    if !ok || h in env.uncommitted {
      return false, db, supply, pnext;
    }
    db := db1;
    pnext := UnlinkDown(s.index, s.genesis, pnext, best, pfork, vDisconnect);
    pnext := LinkUp(s.index, s.genesis, pnext, pfork, h, vConnect);
  }

  /** SetBestChainInner, on the values it changes. */
  method Attach(s: Store, db0: Index, supply0: map<Hash, int>, pnext0: map<Hash, Hash>, tip: Hash, h: Hash, env: Env)
    returns (ok: bool, db: Index, supply: map<Hash, int>, pnext: map<Hash, Hash>)
    requires s.Ok() && h in s.index && h != s.genesis && s.index[h].prev == Some(tip) && tip in s.index
    requires WellFormed(db0, s.disk) && LinksIn(s.index, s.genesis, pnext0, tip)
    ensures ok <==> Accepts(s, env, db0, h) && h !in env.uncommitted
    ensures ok ==> db == After(s, db0, h) && WellFormed(db, s.disk) && LinksIn(s.index, s.genesis, pnext, h)
    ensures !ok ==> db == db0 && pnext == pnext0
    ensures Synced(s, db0, supply0, pnext0, tip) ==> Synced(s, db, supply, pnext, if ok then h else tip)
  {
    hide BlockOk, ConnectAll, Placed;
    db, supply, pnext := db0, supply0, pnext0;
    assert HasParent(s.index, h);
    var db1;
    ok, db1, supply := ConnectOn(s, db, supply, h, env);
    if !ok {
      return;
    }
    if Synced(s, db0, supply0, pnext0, tip) {
      SoundOn(s, env, db0, supply0, h, supply, tip);
    }
    if h in env.uncommitted {
      return false, db, supply, pnext;
    }
    db := db1;
    LinksInOn(s.index, s.genesis, pnext, h);
    if LinksTo(s.index, s.genesis, pnext, tip) { LinksOn(s.index, s.genesis, pnext, h); }
    pnext := pnext[tip := h];
  }

  // ---------------------------------------------------------------- postponed connects

  /** The parent of `h` already has more trust than the best block. */
  predicate Postponed(t: Tree, best: Hash, h: Hash)
    requires best in t && h in t
  {
    t[h].prev.Some? && t[h].prev.value in t && t[t[h].prev.value].nChainTrust > t[best].nChainTrust
  }

  /** The first block, from `h` down, that is not postponed: the one SetBestChain reorganizes to. */
  ghost function Intermediate(t: Tree, g: Hash, best: Hash, h: Hash): (p: Hash)
    requires TreeOk(t, g) && best in t && h in t
    ensures Above(t, g, p, h) && !Postponed(t, best, p)
    ensures forall a :: a in t && Above(t, g, a, h) && t[a].nHeight > t[p].nHeight ==> Postponed(t, best, a)
    decreases t[h].nHeight
  {
    if !Postponed(t, best, h) then h
    else
      ParentAbove(t, g, h);
      var p := Intermediate(t, g, best, t[h].prev.value);
      AboveTrans(t, g, p, t[h].prev.value, h);
      p
  }

  /** The blocks whose connection SetBestChain postpones, and the one it reorganizes to. */
  method Postpone(t: Tree, ghost g: Hash, best: Hash, h: Hash) returns (p: Hash, v: seq<Hash>)
    requires TreeOk(t, g) && best in t && h in t
    ensures p == Intermediate(t, g, best, h) && LeadsDown(t, g, h, p, v)
  {
    p, v := h, [];
    while Postponed(t, best, p)
      invariant LeadsDown(t, g, h, p, v)
      invariant Intermediate(t, g, best, h) == Intermediate(t, g, best, p)
      decreases t[p].nHeight
    {
      assert p != g;
      LeadsDownOn(t, g, h, p, v);
      v := v + [p];
      p := t[p].prev.value;
    }
  }

  /** The block to attach next, seen from above and from below. */
  lemma NextDown(s: Store, h: Hash, from: Hash, v: seq<Hash>, w: seq<Hash>, i: nat)
    requires TreeOk(s.index, s.genesis) && h in s.index && 0 < i <= |v|
    requires LeadsDown(s.index, s.genesis, h, from, v) && LeadsUp(s.index, s.genesis, from, h, w)
    ensures |w| == |v| && w[|v| - i] == v[i - 1] && v[i - 1] in s.index && v[i - 1] != s.genesis
    ensures s.index[v[i - 1]].prev == Some(PassedAt(w, from, |v| - i))
    ensures Above(s.index, s.genesis, v[i - 1], h) && v[i - 1] == PassedAt(w, from, |v| - i + 1)
  {
    UpwardStep(s.index, s.genesis, from, h, w, |v| - i);
  }

  /** Read and attach one postponed block. */
  method AttachNext(s: Store, db0: Index, supply0: map<Hash, int>, pnext0: map<Hash, Hash>, tip: Hash, h: Hash,
    env: Env)
    returns (ok: bool, db: Index, supply: map<Hash, int>, pnext: map<Hash, Hash>)
    requires s.Ok() && h in s.index && h != s.genesis && s.index[h].prev == Some(tip) && tip in s.index
    requires WellFormed(db0, s.disk) && LinksIn(s.index, s.genesis, pnext0, tip)
    ensures ok <==> Attaches(s, env, db0, h)
    ensures WellFormed(db, s.disk) && LinksIn(s.index, s.genesis, pnext, if ok then h else tip)
    ensures db == if ok then After(s, db0, h) else db0
    ensures Synced(s, db0, supply0, pnext0, tip) ==> Synced(s, db, supply, pnext, if ok then h else tip)
  {
    if h in env.unreadable {
      return false, db0, supply0, pnext0;
    }
    ok, db, supply, pnext := Attach(s, db0, supply0, pnext0, tip, h, env);
  }

  lemma ClimbStep(s: Store, env: Env, db: Index, w: seq<Hash>, i: nat)
    requires Known(s, w) && i < |w|
    ensures Climb(s, env, db, w[i..])
         == if Attaches(s, env, db, w[i]) then 1 + Climb(s, env, After(s, db, w[i]), w[i + 1..]) else 0
  {
    hide BlockOk, ConnectAll, Placed;
    assert w[i..][0] == w[i] && w[i..][1..] == w[i + 1..];
  }

  /** `k` of the blocks `w` are attached, and the others are still to be tried. */
  ghost predicate Climbed(s: Store, env: Env, db0: Index, from: Hash, w: seq<Hash>, k: nat, db: Index, tip: Hash) {
    && Known(s, w) && k <= |w|
    && tip == PassedAt(w, from, k) && db == Applied(s, db0, w[..k])
    && Climb(s, env, db0, w) == k + Climb(s, env, db, w[k..])
  }

  lemma ClimbedStart(s: Store, env: Env, db: Index, from: Hash, w: seq<Hash>)
    requires Known(s, w)
    ensures Climbed(s, env, db, from, w, 0, db, from)
  {
    assert w[..0] == [] && w[0..] == w;
  }

  lemma ClimbedStep(s: Store, env: Env, db0: Index, from: Hash, w: seq<Hash>, k: nat, db: Index, tip: Hash)
    requires Climbed(s, env, db0, from, w, k, db, tip) && k < |w|
    ensures Attaches(s, env, db, w[k]) ==> Climbed(s, env, db0, from, w, k + 1, After(s, db, w[k]), w[k])
    ensures !Attaches(s, env, db, w[k]) ==> Climb(s, env, db0, w) == k
  {
    hide BlockOk, ConnectAll, Placed;
    ClimbStep(s, env, db, w, k);
    AppliedSnoc(s, env, db0, w, k);
  }

  lemma ClimbedEnd(s: Store, env: Env, db0: Index, from: Hash, w: seq<Hash>, db: Index, tip: Hash)
    requires Climbed(s, env, db0, from, w, |w|, db, tip)
    ensures Climb(s, env, db0, w) == |w|
  {
    assert w[|w|..] == [];
  }

  /** The postponed connects of SetBestChain; stops at the first that fails. `w` is `v` from
      below. */
  method AttachAll(s: Store, db0: Index, supply0: map<Hash, int>, pnext0: map<Hash, Hash>, from: Hash, ghost h: Hash,
    v: seq<Hash>, ghost w: seq<Hash>, env: Env)
    returns (db: Index, supply: map<Hash, int>, pnext: map<Hash, Hash>, tip: Hash)
    requires s.Ok() && h in s.index && LeadsDown(s.index, s.genesis, h, from, v)
    requires LeadsUp(s.index, s.genesis, from, h, w) && Known(s, w)
    requires WellFormed(db0, s.disk) && LinksIn(s.index, s.genesis, pnext0, from)
    ensures Climbed(s, env, db0, from, w, Climb(s, env, db0, w), db, tip)
    ensures WellFormed(db, s.disk) && Above(s.index, s.genesis, tip, h) && LinksIn(s.index, s.genesis, pnext, tip)
    ensures Synced(s, db0, supply0, pnext0, from) ==> Synced(s, db, supply, pnext, tip)
  {
    db, supply, pnext, tip := db0, supply0, pnext0, from;
    var i := |v|;
    hide BlockOk, ConnectAll, Placed, Synced;
    ghost var sound := Synced(s, db0, supply0, pnext0, from);
    ClimbedStart(s, env, db, from, w);
    while i > 0
      invariant 0 <= i <= |v| == |w| && Climbed(s, env, db0, from, w, |v| - i, db, tip)
      invariant Above(s.index, s.genesis, tip, h) && WellFormed(db, s.disk) && LinksIn(s.index, s.genesis, pnext, tip)
      invariant sound ==> Synced(s, db, supply, pnext, tip)
    {
      NextDown(s, h, from, v, w, i);
      ClimbedStep(s, env, db0, from, w, |v| - i, db, tip);
      var done;
      done, db, supply, pnext := AttachNext(s, db, supply, pnext, tip, v[i - 1], env);
      if !done {
        return;
      }
      i := i - 1;
      tip := v[i];
    }
    ClimbedEnd(s, env, db0, from, w, db, tip);
  }

  // ---------------------------------------------------------------- from the fold of the best chain

  /** Block `h` can be read and connects on top of its parent's fold. */
  ghost predicate JoinsFold(s: Store, env: Env, h: Hash) {
    && TreeOk(s.index, s.genesis) && h in s.index && h != s.genesis && HasParent(s.index, h)
    && Joins(s, env, FoldTo(s.index, s.genesis, s.index[h].prev.value), h)
  }

  /** ... and the result can be committed. */
  ghost predicate Climbs(s: Store, env: Env, h: Hash) { JoinsFold(s, env, h) && h !in env.uncommitted }

  ghost predicate AllJoin(s: Store, env: Env, v: seq<Hash>) {
    forall k {:trigger JoinsFold(s, env, v[k])} :: 0 <= k < |v| ==> JoinsFold(s, env, v[k])
  }

  lemma AllJoinSnoc(s: Store, env: Env, v: seq<Hash>, i: nat)
    requires i < |v|
    ensures AllJoin(s, env, v[..i + 1]) <==> AllJoin(s, env, v[..i]) && JoinsFold(s, env, v[i])
  {
    hide BlockOk, ConnectAll, Placed;
    assert v[..i + 1] == v[..i] + [v[i]];
    if AllJoin(s, env, v[..i + 1]) {
      assert JoinsFold(s, env, v[..i + 1][i]);
      forall k | 0 <= k < i ensures JoinsFold(s, env, v[..i][k]) { assert JoinsFold(s, env, v[..i + 1][k]); }
    }
    if AllJoin(s, env, v[..i]) && JoinsFold(s, env, v[i]) {
      var w := v[..i + 1];
      forall k | 0 <= k < |w| ensures JoinsFold(s, env, w[k]) { if k < i { assert JoinsFold(s, env, v[..i][k]); } }
    }
  }

  lemma AppliedStep(s: Store, env: Env, db: Index, fork: Hash, tip: Hash, v: seq<Hash>, i: nat)
    requires s.Ok() && tip in s.index && LeadsUp(s.index, s.genesis, fork, tip, v) && Known(s, v) && i < |v|
    requires StandsAt(s, Applied(s, db, v[..i]), PassedAt(v, fork, i))
    ensures Applies(s, env, db, v[..i + 1]) <==> Applies(s, env, db, v[..i]) && JoinsFold(s, env, v[i])
    ensures Applies(s, env, db, v[..i + 1]) ==> StandsAt(s, Applied(s, db, v[..i + 1]), v[i])
  {
    hide BlockOk, ConnectAll, Placed;
    AppliedSnoc(s, env, db, v, i);
    NextUp(s, fork, tip, v, i);
    if Applies(s, env, db, v[..i + 1]) {
      StandsOn(s, env, Applied(s, db, v[..i]), v[i]);
    }
  }

  lemma {:induction false} AppliedStands(s: Store, env: Env, db: Index, fork: Hash, tip: Hash, v: seq<Hash>, i: nat)
    requires s.Ok() && tip in s.index && LeadsUp(s.index, s.genesis, fork, tip, v) && Known(s, v)
    requires StandsAt(s, db, fork) && i <= |v|
    ensures Applies(s, env, db, v[..i]) <==> AllJoin(s, env, v[..i])
    ensures Applies(s, env, db, v[..i]) ==> StandsAt(s, Applied(s, db, v[..i]), PassedAt(v, fork, i))
  {
    hide BlockOk, ConnectAll, Placed;
    if i == 0 {
      assert v[..0] == [];
    } else {
      AppliedStands(s, env, db, fork, tip, v, i - 1);
      AllJoinSnoc(s, env, v, i - 1);
      AppliesPrefix(s, env, db, v[..i], i - 1);
      assert v[..i][..i - 1] == v[..i - 1];
      if Applies(s, env, db, v[..i - 1]) {
        AppliedStep(s, env, db, fork, tip, v, i - 1);
      }
    }
  }

  ghost predicate Leaves(s: Store, best: Hash, h: Hash, b: Hash)
    requires TreeOk(s.index, s.genesis) && best in s.index && h in s.index
  {
    Above(s.index, s.genesis, b, best) && !Above(s.index, s.genesis, b, h)
  }

  /** When Reorganize succeeds from the fold of the best chain: the blocks it leaves can be
      read, the blocks it enters connect, and the commit works. */
  ghost predicate SwitchOk(s: Store, env: Env, best: Hash, h: Hash)
    requires TreeOk(s.index, s.genesis) && best in s.index && h in s.index
  {
    && (forall b {:trigger Leaves(s, best, h, b)} :: Leaves(s, best, h, b) ==> b !in env.unreadable)
    && (forall b {:trigger Leaves(s, h, best, b)} :: Leaves(s, h, best, b) ==> JoinsFold(s, env, b))
    && h !in env.uncommitted
  }

  lemma {:induction false} ReadableIs(env: Env, v: seq<Hash>, i: nat)
    requires i <= |v|
    ensures Readable(env, v, i) <==> forall k :: 0 <= k < i ==> v[k] !in env.unreadable
  {
    if i > 0 { ReadableIs(env, v, i - 1); }
  }

  lemma LeavesAre(s: Store, env: Env, best: Hash, h: Hash, f: Hash, down: seq<Hash>)
    requires TreeOk(s.index, s.genesis) && best in s.index && h in s.index
    requires IsFork(s.index, s.genesis, f, best, h) && LeadsDown(s.index, s.genesis, best, f, down)
    ensures Readable(env, down, |down|)
       <==> (forall b {:trigger Leaves(s, best, h, b)} :: Leaves(s, best, h, b) ==> b !in env.unreadable)
  {
    forall b ensures Leaves(s, best, h, b) <==> b in down { DownIs(s.index, s.genesis, best, h, f, down, b); }
    ReadableIs(env, down, |down|);
    if forall b {:trigger Leaves(s, best, h, b)} :: Leaves(s, best, h, b) ==> b !in env.unreadable {
      forall k | 0 <= k < |down| ensures down[k] !in env.unreadable { assert Leaves(s, best, h, down[k]); }
    }
  }

  lemma EntersAre(s: Store, env: Env, best: Hash, h: Hash, f: Hash, up: seq<Hash>)
    requires TreeOk(s.index, s.genesis) && best in s.index && h in s.index
    requires IsFork(s.index, s.genesis, f, best, h) && LeadsUp(s.index, s.genesis, f, h, up)
    ensures AllJoin(s, env, up)
       <==> forall b {:trigger Leaves(s, h, best, b)} :: Leaves(s, h, best, b) ==> JoinsFold(s, env, b)
  {
    hide BlockOk, ConnectAll, Placed;
    forall b ensures b in up <==> Leaves(s, h, best, b) { UpIs(s.index, s.genesis, best, h, f, up, b); }
    if AllJoin(s, env, up) {
      forall b | Leaves(s, h, best, b) ensures JoinsFold(s, env, b) {
        var k :| 0 <= k < |up| && up[k] == b;
        assert JoinsFold(s, env, up[k]);
      }
    }
    if forall b {:trigger Leaves(s, h, best, b)} :: Leaves(s, h, best, b) ==> JoinsFold(s, env, b) {
      forall k | 0 <= k < |up| ensures JoinsFold(s, env, up[k]) { assert Leaves(s, h, best, up[k]); }
    }
  }

  lemma CanSwitchIff(s: Store, env: Env, db: Index, best: Hash, h: Hash)
    requires s.Ok() && StandsAt(s, db, best) && h in s.index
    ensures CanSwitch(s, env, db, best, h) <==> SwitchOk(s, env, best, h)
    ensures CanSwitch(s, env, db, best, h) ==> StandsAt(s, Switched(s, db, best, h), h)
  {
    hide BlockOk, ConnectAll, Placed;
    var t, g := s.index, s.genesis;
    var f := Fork(t, g, best, h);
    PathKnown(s, f, best);
    PathKnown(s, f, h);
    var down, up := PathDown(t, g, best, f), PathUp(t, g, f, h);
    RevertedStands(s, env, db, best, f, down, |down|);
    assert down[..|down|] == down && up[..|up|] == up;
    AppliedStands(s, env, Reverted(s, db, down), f, h, up, |up|);
    PassedAll(t, g, f, h, up);
    LeavesAre(s, env, best, h, f, down);
    EntersAre(s, env, best, h, f, up);
  }

  ghost predicate Between(s: Store, p: Hash, h: Hash, b: Hash)
    requires TreeOk(s.index, s.genesis) && p in s.index && h in s.index
  {
    Above(s.index, s.genesis, b, h) && s.index[b].nHeight > s.index[p].nHeight
  }

  /** Every block from above `p` up to `h` can be read, connects and can be committed. */
  ghost predicate ClimbOk(s: Store, env: Env, p: Hash, h: Hash)
    requires TreeOk(s.index, s.genesis) && p in s.index && h in s.index
  {
    forall b {:trigger Between(s, p, h, b)} :: Between(s, p, h, b) ==> Climbs(s, env, b)
  }

  lemma {:induction false} ClimbStands(s: Store, env: Env, db: Index, from: Hash, h: Hash, w: seq<Hash>, i: nat)
    requires s.Ok() && h in s.index && LeadsUp(s.index, s.genesis, from, h, w) && Known(s, w) && i <= |w|
    requires StandsAt(s, db, PassedAt(w, from, i))
    ensures Climb(s, env, db, w[i..]) == |w| - i
       <==> forall k {:trigger Climbs(s, env, w[k])} :: i <= k < |w| ==> Climbs(s, env, w[k])
    decreases |w| - i
  {
    hide BlockOk, ConnectAll, Placed;
    if i < |w| {
      NextUp(s, from, h, w, i);
      ClimbStep(s, env, db, w, i);
      assert Climbs(s, env, w[i]) <==> Attaches(s, env, db, w[i]);
      if Attaches(s, env, db, w[i]) {
        StandsOn(s, env, db, w[i]);
        ClimbStands(s, env, After(s, db, w[i]), from, h, w, i + 1);
      }
    }
  }

  lemma BetweenAre(s: Store, env: Env, from: Hash, h: Hash, w: seq<Hash>)
    requires TreeOk(s.index, s.genesis) && h in s.index && LeadsUp(s.index, s.genesis, from, h, w)
    ensures ClimbOk(s, env, from, h)
       <==> forall k {:trigger Climbs(s, env, w[k])} :: 0 <= k < |w| ==> Climbs(s, env, w[k])
  {
    hide BlockOk, ConnectAll, Placed;
    if ClimbOk(s, env, from, h) {
      forall k | 0 <= k < |w| ensures Climbs(s, env, w[k]) {
        UpwardStep(s.index, s.genesis, from, h, w, k);
        assert Between(s, from, h, w[k]);
      }
    }
    if forall k {:trigger Climbs(s, env, w[k])} :: 0 <= k < |w| ==> Climbs(s, env, w[k]) {
      forall b | Between(s, from, h, b) ensures Climbs(s, env, b) {
        assert w[s.index[b].nHeight - s.index[from].nHeight - 1] == b;
        assert Climbs(s, env, w[s.index[b].nHeight - s.index[from].nHeight - 1]);
      }
    }
  }

  /** The postponed connects reach `h` exactly if all of them can be done. */
  lemma ClimbIff(s: Store, env: Env, db: Index, from: Hash, h: Hash)
    requires s.Ok() && h in s.index && StandsAt(s, db, from) && Above(s.index, s.genesis, from, h)
    ensures Known(s, PathUp(s.index, s.genesis, from, h))
    ensures var w := PathUp(s.index, s.genesis, from, h);
      PassedAt(w, from, Climb(s, env, db, w)) == h <==> ClimbOk(s, env, from, h)
  {
    hide BlockOk, ConnectAll, Placed;
    PathKnown(s, from, h);
    var w := PathUp(s.index, s.genesis, from, h);
    ClimbStands(s, env, db, from, h, w, 0);
    assert w[0..] == w;
    BetweenAre(s, env, from, h, w);
    PassedTop(s, from, h, w, Climb(s, env, db, w));
  }

  lemma PassedTop(s: Store, from: Hash, h: Hash, w: seq<Hash>, k: nat)
    requires TreeOk(s.index, s.genesis) && h in s.index && LeadsUp(s.index, s.genesis, from, h, w) && k <= |w|
    ensures PassedAt(w, from, k) == h <==> k == |w|
  {
    PassedAll(s.index, s.genesis, from, h, w);
    if 0 < k < |w| { UpwardStep(s.index, s.genesis, from, h, w, k - 1); }
  }

  // ---------------------------------------------------------------- SetBestChain as a whole

  /** `db` and `tip` are where the postponed connects from `p` to `h` end: at the first block that
      cannot be attached on top of those before it. */
  ghost predicate StopsAt(s: Store, env: Env, db0: Index, p: Hash, h: Hash, db: Index, tip: Hash) {
    && TreeOk(s.index, s.genesis) && h in s.index && Above(s.index, s.genesis, p, h)
    && var w := PathUp(s.index, s.genesis, p, h);
      Known(s, w) && Climbed(s, env, db0, p, w, Climb(s, env, db0, w), db, tip)
  }

  /** What SetBestChain leaves in the database when it makes `h` the best block, from any index. */
  ghost predicate Moved(s: Store, env: Env, db0: Index, best: Hash, h: Hash, db: Index, tip: Hash) {
    && TreeOk(s.index, s.genesis) && best in s.index && h in s.index
    && if s.index[h].prev == Some(best) then tip == h && db == After(s, db0, h)
       else
         var p := Intermediate(s.index, s.genesis, best, h);
         StopsAt(s, env, Switched(s, db0, best, p), p, h, db, tip)
  }

  /** When SetBestChain succeeds in making `h` the best block, from any index. */
  ghost predicate Adopts(s: Store, env: Env, db: Index, best: Hash, h: Hash)
    requires TreeOk(s.index, s.genesis) && best in s.index && h in s.index
  {
    if s.index[h].prev == Some(best) then Accepts(s, env, db, h) && h !in env.uncommitted
    else CanSwitch(s, env, db, best, Intermediate(s.index, s.genesis, best, h))
  }

  /** The same from the fold of the best chain. */
  ghost predicate AdoptOk(s: Store, env: Env, best: Hash, h: Hash)
    requires TreeOk(s.index, s.genesis) && best in s.index && h in s.index
  {
    if s.index[h].prev == Some(best) then
      Accepts(s, env, FoldTo(s.index, s.genesis, best), h) && h !in env.uncommitted
    else SwitchOk(s, env, best, Intermediate(s.index, s.genesis, best, h))
  }

  /** When the database then reaches `h`: at once if it is a child of the best block, else if all
      postponed connects succeed. */
  ghost predicate FinishOk(s: Store, env: Env, best: Hash, h: Hash)
    requires TreeOk(s.index, s.genesis) && best in s.index && h in s.index
  {
    s.index[h].prev == Some(best) || ClimbOk(s, env, Intermediate(s.index, s.genesis, best, h), h)
  }

  lemma AdoptsIff(s: Store, env: Env, db: Index, best: Hash, h: Hash)
    requires s.Ok() && StandsAt(s, db, best) && h in s.index
    ensures Adopts(s, env, db, best, h) <==> AdoptOk(s, env, best, h)
  {
    CanSwitchIff(s, env, db, best, Intermediate(s.index, s.genesis, best, h));
  }

  /** If the database is left standing at a proper ancestor of the best block, its index
      is not the index of the best chain. */
  lemma StuckIndexDiffers(s: Store, db: Index, tip: Hash, best: Hash)
    requires s.Ok() && StandsAt(s, db, tip) && best in s.index && Above(s.index, s.genesis, tip, best)
    ensures db == FoldTo(s.index, s.genesis, best) <==> tip == best
  {
    if tip != best {
      var t, g := s.index, s.genesis;
      assert best != g;
      assert HasParent(t, best) && Accepted(t, s.disk, best);
      var cb := Ts(t[best])[0];
      assert cb.tx.hash in Ids(Ts(t[best]));
      ConnectAllKeys(FoldTo(t, g, t[best].prev.value), Ts(t[best]));
      FoldKeys(t, g, tip);
      HistoryIsOk(t, g, s.disk, tip);
      var ts := TxsTo(t, g, tip);
      forall i | 0 <= i < |ts| ensures ts[i].tx.hash != cb.tx.hash {
        assert HashPair(s.disk[ts[i].pos], s.disk[cb.pos]);
      }
    }
  }
}
