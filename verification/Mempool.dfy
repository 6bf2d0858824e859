/** The memory pool: transactions by id, and for every spent outpoint its spender
    (src/main.cpp: CTxMemPool; src/main.h: CTxMemPool, CInPoint). */
module Mempool {
  import opened Basics
  import opened Transactions
  import opened Marks
  import opened Supply
  import opened Inputs
  import opened Blocks

  datatype InPoint = InPoint(hash: Hash, n: nat)

  datatype Pool = Pool(mapTx: map<Hash, Tx>, mapNextTx: map<OutPoint, InPoint>)

  /** Pool transaction `h` is filed under its id, and as the spender of each of its inputs. */
  ghost predicate Filed(p: Pool, h: Hash)
    requires h in p.mapTx
  {
    var tx := p.mapTx[h];
    && tx.hash == h && Distinct(tx.vin) && !tx.IsCoinBase()
    && (forall i :: 0 <= i < |tx.vin| ==> tx.vin[i] in p.mapNextTx && p.mapNextTx[tx.vin[i]] == InPoint(h, i))
  }

  /** The recorded spender of `o` is in the pool and spends it. */
  ghost predicate Spent(p: Pool, o: OutPoint)
    requires o in p.mapNextTx
  {
    var s := p.mapNextTx[o];
    s.hash in p.mapTx && s.n < |p.mapTx[s.hash].vin| && p.mapTx[s.hash].vin[s.n] == o
  }

  /** Ids are acyclic: a transaction is deeper than the pool transactions it spends from. */
  ghost predicate Deeper(m: map<Hash, Tx>, h: Hash)
    requires h in m
  {
    forall o :: o in m[h].vin && o.hash in m ==> m[o.hash].depth < m[h].depth
  }

  ghost predicate Acyclic(m: map<Hash, Tx>) { forall h {:trigger Deeper(m, h)} :: h in m ==> Deeper(m, h) }

  /** mapNextTx is exactly the spender index of mapTx. */
  ghost predicate Inv(p: Pool) {
    && (forall h {:trigger Filed(p, h)} :: h in p.mapTx ==> Filed(p, h))
    && (forall o {:trigger Spent(p, o)} :: o in p.mapNextTx ==> Spent(p, o))
    && Acyclic(p.mapTx)
  }

  /** No outpoint is spent twice, and mapNextTx knows exactly the spent ones. */
  lemma SpenderIndex(p: Pool, o: OutPoint)
    requires Inv(p)
    ensures o in p.mapNextTx <==> exists h :: h in p.mapTx && o in p.mapTx[h].vin
    ensures forall h, k :: h in p.mapTx && k in p.mapTx && o in p.mapTx[h].vin && o in p.mapTx[k].vin ==> h == k
    ensures forall h :: h in p.mapTx && o in p.mapTx[h].vin ==> o in p.mapNextTx && p.mapNextTx[o].hash == h
  {
    forall h | h in p.mapTx && o in p.mapTx[h].vin
      ensures o in p.mapNextTx && p.mapNextTx[o].hash == h
    {
      assert Filed(p, h);
    }
    if o in p.mapNextTx {
      assert Spent(p, o);
      assert o in p.mapTx[p.mapNextTx[o].hash].vin;
    }
  }

  // ---------------------------------------------------------------- descendants

  /** `o` is an output that a pool transaction really has. */
  predicate Real(m: map<Hash, Tx>, o: OutPoint) { o.hash in m && o.n < |m[o.hash].vout| }

  /** `h` is `a`, or spends an existing output of a descendant of `a`. */
  ghost predicate Descends(m: map<Hash, Tx>, h: Hash, a: Hash)
    requires Acyclic(m)
    decreases if h in m then m[h].depth else 0
  {
    && h in m && a in m
    && (h == a || (Deeper(m, h) && exists o :: o in m[h].vin && Real(m, o) && Descends(m, o.hash, a)))
  }

  ghost function Descendants(m: map<Hash, Tx>, a: Hash): set<Hash>
    requires Acyclic(m)
  {
    set h | h in m && Descends(m, h, a)
  }

  /** `c` spends an output of `a` below number `n`. */
  predicate Child(m: map<Hash, Tx>, a: Hash, n: nat, c: Hash) {
    c in m && exists o :: o in m[c].vin && o.hash == a && o.n < n
  }

  /** The descendants of `a` by its first n outputs. */
  ghost predicate Via(m: map<Hash, Tx>, a: Hash, n: nat, h: Hash)
    requires Acyclic(m)
  {
    exists c :: Child(m, a, n, c) && Descends(m, h, c)
  }

  lemma {:induction false} DescendsTrans(m: map<Hash, Tx>, h: Hash, c: Hash, a: Hash)
    requires Acyclic(m) && Descends(m, h, c) && Descends(m, c, a)
    ensures Descends(m, h, a)
    decreases m[h].depth
  {
    if h != c {
      var o :| o in m[h].vin && Real(m, o) && Descends(m, o.hash, c);
      assert Deeper(m, h);
      DescendsTrans(m, o.hash, c, a);
    }
  }

  lemma ChildDescends(m: map<Hash, Tx>, a: Hash, c: Hash)
    requires Acyclic(m) && a in m && Child(m, a, |m[a].vout|, c)
    ensures Descends(m, c, a)
  {
    var o :| o in m[c].vin && o.hash == a && o.n < |m[a].vout|;
    assert Deeper(m, c) && Real(m, o) && Descends(m, o.hash, a);
  }

  /** A descendant other than `a` itself comes through one of the outputs of `a`. */
  lemma {:induction false} DescendsVia(m: map<Hash, Tx>, h: Hash, a: Hash)
    requires Acyclic(m) && a in m
    ensures Descends(m, h, a) <==> h == a || Via(m, a, |m[a].vout|, h)
    decreases if h in m then m[h].depth else 0
  {
    if Descends(m, h, a) && h != a {
      var o :| o in m[h].vin && Real(m, o) && Descends(m, o.hash, a);
      assert Deeper(m, h);
      if o.hash == a {
        assert Child(m, a, |m[a].vout|, h) && Descends(m, h, h);
      } else {
        DescendsVia(m, o.hash, a);
        var c :| Child(m, a, |m[a].vout|, c) && Descends(m, o.hash, c);
        assert Descends(m, h, c);
      }
    }
    if Via(m, a, |m[a].vout|, h) {
      var c :| Child(m, a, |m[a].vout|, c) && Descends(m, h, c);
      ChildDescends(m, a, c);
      DescendsTrans(m, h, c, a);
    }
  }

  lemma {:induction false} DescendsDeeper(m: map<Hash, Tx>, h: Hash, a: Hash)
    requires Acyclic(m) && Descends(m, h, a)
    ensures h == a || m[a].depth < m[h].depth
    decreases m[h].depth
  {
    if h != a {
      var o :| o in m[h].vin && Real(m, o) && Descends(m, o.hash, a);
      assert Deeper(m, h);
      DescendsDeeper(m, o.hash, a);
    }
  }

  /** `m'` is `m` without a set of transactions that is closed under spending. */
  ghost predicate Pruned(m: map<Hash, Tx>, m': map<Hash, Tx>)
    requires Acyclic(m)
  {
    && (forall h :: h in m' ==> h in m && m'[h] == m[h])
    && (forall h {:trigger Orphaned(m, m', h)} :: h in m && Orphaned(m, m', h) ==> h !in m')
  }

  /** `h` spends an existing output of a transaction that is gone. */
  ghost predicate Orphaned(m: map<Hash, Tx>, m': map<Hash, Tx>, h: Hash)
    requires h in m
  {
    exists o :: o in m[h].vin && Real(m, o) && o.hash !in m'
  }

  /** Pruning keeps the descent of what stays. */
  lemma {:induction false} PrunedDescends(m: map<Hash, Tx>, m': map<Hash, Tx>, h: Hash, a: Hash)
    requires Acyclic(m) && Acyclic(m') && Pruned(m, m') && h in m'
    ensures Descends(m', h, a) <==> Descends(m, h, a)
    decreases m[h].depth
  {
    assert Deeper(m, h) && Deeper(m', h);
    if Descends(m, h, a) && h != a {
      var o :| o in m[h].vin && Real(m, o) && Descends(m, o.hash, a);
      assert !Orphaned(m, m', h);
      PrunedDescends(m, m', o.hash, a);
      assert Real(m', o);
    }
    if Descends(m', h, a) && h != a {
      var o :| o in m'[h].vin && Real(m', o) && Descends(m', o.hash, a);
      PrunedDescends(m, m', o.hash, a);
      assert Real(m, o);
    }
    if h == a { assert a in m; }
  }

  // ---------------------------------------------------------------- remove

  function Without(p: Pool, tx: Tx): Pool {
    Pool(p.mapTx - {tx.hash}, p.mapNextTx - (set o | o in tx.vin))
  }

  /** `tx` is what the pool knows under its id. */
  predicate Same(p: Pool, tx: Tx) { tx.hash in p.mapTx ==> p.mapTx[tx.hash] == tx }

  lemma SubAcyclic(m: map<Hash, Tx>, m': map<Hash, Tx>)
    requires Acyclic(m) && forall h :: h in m' ==> h in m && m'[h] == m[h]
    ensures Acyclic(m')
  {
    forall h | h in m' ensures Deeper(m', h) { assert Deeper(m, h); }
  }

  lemma WithoutKeeps(p: Pool, tx: Tx)
    requires Inv(p) && tx.hash in p.mapTx && Same(p, tx)
    ensures Inv(Without(p, tx))
  {
    var p' := Without(p, tx);
    SubAcyclic(p.mapTx, p'.mapTx);
    assert Filed(p, tx.hash);
    forall h | h in p'.mapTx ensures Filed(p', h) {
      assert Filed(p, h);
      forall i | 0 <= i < |p'.mapTx[h].vin| ensures p'.mapTx[h].vin[i] in p'.mapNextTx {
        SpenderIndex(p, p'.mapTx[h].vin[i]);
      }
    }
    forall o | o in p'.mapNextTx ensures Spent(p', o) { assert Spent(p, o); }
  }

  /** The last part of CTxMemPool::remove. */
  method Erase(p: Pool, tx: Tx) returns (p': Pool)
    requires Inv(p) && tx.hash in p.mapTx && Same(p, tx)
    ensures p' == Without(p, tx) && Inv(p')
  {
    var next := p.mapNextTx;
    for i := 0 to |tx.vin|
      invariant next == p.mapNextTx - (set o | o in tx.vin[..i])
    {
      assert tx.vin[..i + 1] == tx.vin[..i] + [tx.vin[i]];
      next := next - {tx.vin[i]};
    }
    assert tx.vin[..|tx.vin|] == tx.vin;
    WithoutKeeps(p, tx);
    p' := Pool(p.mapTx - {tx.hash}, next);
  }

  /** The pool transactions deeper than `tx`: the recursion of remove goes into these only. */
  function DeeperThan(m: map<Hash, Tx>, tx: Tx): set<Hash> { set h | h in m && m[h].depth > tx.depth }

  lemma DeeperShrinks(m: map<Hash, Tx>, m': map<Hash, Tx>, tx: Tx, child: Tx)
    requires child.hash in m && m[child.hash] == child && child.depth > tx.depth
    requires forall h :: h in m' ==> h in m && m'[h] == m[h]
    ensures |DeeperThan(m', child)| < |DeeperThan(m, tx)|
  {
    var a, b := DeeperThan(m', child), DeeperThan(m, tx);
    assert a <= b - {child.hash} && child.hash in b;
    assert b - {child.hash} == a + (b - {child.hash} - a);
  }

  /** The pool while the outputs of `tx` below `n` have been dealt with. */
  ghost predicate RemovedVia(m: map<Hash, Tx>, m': map<Hash, Tx>, a: Hash, n: nat)
    requires Acyclic(m)
  {
    forall h {:trigger ViaAt(m, m', a, n, h)} :: ViaAt(m, m', a, n, h)
  }

  ghost predicate ViaAt(m: map<Hash, Tx>, m': map<Hash, Tx>, a: Hash, n: nat, h: Hash)
    requires Acyclic(m)
  {
    (h in m' ==> h in m && m'[h] == m[h]) && (h in m ==> (h in m' <==> !Via(m, a, n, h)))
  }

  lemma RemovedViaPruned(m: map<Hash, Tx>, m': map<Hash, Tx>, a: Hash, n: nat)
    requires Acyclic(m) && RemovedVia(m, m', a, n)
    ensures Acyclic(m') && Pruned(m, m')
  {
    forall h | h in m' ensures h in m && m'[h] == m[h] { assert ViaAt(m, m', a, n, h); }
    SubAcyclic(m, m');
    forall h | h in m && Orphaned(m, m', h) ensures h !in m' {
      assert ViaAt(m, m', a, n, h);
      var o :| o in m[h].vin && Real(m, o) && o.hash !in m';
      assert ViaAt(m, m', a, n, o.hash);
      assert Via(m, a, n, o.hash);
      var c :| Child(m, a, n, c) && Descends(m, o.hash, c);
      assert Deeper(m, h) && Descends(m, h, c);
      assert Via(m, a, n, h);
    }
  }

  /** One more output adds the descendants of its spender `c`. */
  lemma ViaSplit(p: Pool, a: Hash, n: nat, c: Hash, h: Hash)
    requires Inv(p) && c in p.mapTx && OutPoint(a, n) in p.mapTx[c].vin
    ensures Via(p.mapTx, a, n + 1, h) <==> Via(p.mapTx, a, n, h) || Descends(p.mapTx, h, c)
  {
    var m, n' := p.mapTx, n + 1;
    assert Child(m, a, n', c);
    ViaGrows(m, a, n, h);
    if Via(m, a, n', h) {
      var d :| Child(m, a, n', d) && Descends(m, h, d);
      var o :| o in m[d].vin && o.hash == a && o.n < n';
      SpenderIndex(p, o);
      assert o.n < n ==> Child(m, a, n, d);
    }
  }

  lemma ViaGrows(m: map<Hash, Tx>, a: Hash, n: nat, h: Hash)
    requires Acyclic(m)
    ensures Via(m, a, n, h) ==> Via(m, a, n + 1, h)
    ensures Via(m, a, n + 1, h) && (forall c :: c in m ==> OutPoint(a, n) !in m[c].vin) ==> Via(m, a, n, h)
  {
    var n' := n + 1;
    if Via(m, a, n, h) {
      var c :| Child(m, a, n, c) && Descends(m, h, c);
      assert Child(m, a, n', c);
    }
    if Via(m, a, n', h) && forall c :: c in m ==> OutPoint(a, n) !in m[c].vin {
      var c :| Child(m, a, n', c) && Descends(m, h, c);
      var o :| o in m[c].vin && o.hash == a && o.n < n';
      assert o != OutPoint(a, n);
      assert Child(m, a, n, c);
    }
  }

  /** The next output has no spender left. */
  lemma ViaSkip(p: Pool, m': map<Hash, Tx>, a: Hash, n: nat)
    requires Inv(p) && RemovedVia(p.mapTx, m', a, n)
    requires forall c :: c in m' ==> OutPoint(a, n) !in m'[c].vin
    ensures RemovedVia(p.mapTx, m', a, n + 1)
  {
    var m, n' := p.mapTx, n + 1;
    forall h ensures ViaAt(m, m', a, n', h) {
      assert ViaAt(m, m', a, n, h);
      ViaGrows(m, a, n, h);
      if c :| c in m && OutPoint(a, n) in m[c].vin {
        assert ViaAt(m, m', a, n, c);
        var d :| Child(m, a, n, d) && Descends(m, c, d);
        ViaSplit(p, a, n, c, h);
        if Descends(m, h, c) { DescendsTrans(m, h, c, d); }
      }
    }
  }

  /** Without the descendants of `c`, seen from `h`. */
  ghost predicate CutAt(m: map<Hash, Tx>, m': map<Hash, Tx>, c: Hash, h: Hash)
    requires Acyclic(m)
  {
    (h in m' <==> h in m && !Descends(m, h, c)) && (h in m' ==> m'[h] == m[h])
  }

  lemma CutIs(m: map<Hash, Tx>, c: Hash, h: Hash)
    requires Acyclic(m)
    ensures CutAt(m, m - Descendants(m, c), c, h)
  {
    assert h in Descendants(m, c) <==> h in m && Descends(m, h, c);
  }

  /** The spender of the next output is removed with its descendants. */
  lemma ViaNext(p: Pool, m': map<Hash, Tx>, m'': map<Hash, Tx>, a: Hash, n: nat, c: Hash)
    requires Inv(p) && RemovedVia(p.mapTx, m', a, n) && Acyclic(m')
    requires c in m' && OutPoint(a, n) in m'[c].vin && forall h {:trigger CutAt(m', m'', c, h)} :: CutAt(m', m'', c, h)
    ensures RemovedVia(p.mapTx, m'', a, n + 1)
  {
    var m, n' := p.mapTx, n + 1;
    forall h ensures ViaAt(m, m'', a, n', h) {
      assert ViaAt(m, m', a, n, h) && CutAt(m', m'', c, h);
      if h in m { ViaNextAt(p, m', a, n, c, h); }
    }
  }

  lemma ViaNextAt(p: Pool, m': map<Hash, Tx>, a: Hash, n: nat, c: Hash, h: Hash)
    requires Inv(p) && RemovedVia(p.mapTx, m', a, n) && Acyclic(m') && h in p.mapTx
    requires c in m' && OutPoint(a, n) in m'[c].vin
    ensures h in m' && !Descends(m', h, c) <==> !Via(p.mapTx, a, n + 1, h)
  {
    assert ViaAt(p.mapTx, m', a, n, h) && ViaAt(p.mapTx, m', a, n, c);
    ViaSplit(p, a, n, c, h);
    if h in m' {
      RemovedViaPruned(p.mapTx, m', a, n);
      PrunedDescends(p.mapTx, m', h, c);
    }
  }

  /** CTxMemPool::remove with fRecursive: terminates, and removes exactly the descendants. */
  method RemoveRecursive(p: Pool, tx: Tx) returns (p': Pool)
    requires Inv(p) && Same(p, tx)
    ensures Inv(p')
    ensures p'.mapTx == if tx.hash in p.mapTx then p.mapTx - Descendants(p.mapTx, tx.hash) else p.mapTx
    decreases |DeeperThan(p.mapTx, tx)|
  {
    p' := p;
    if tx.hash in p.mapTx {
      ghost var m := p.mapTx;
      forall h ensures ViaAt(m, m, tx.hash, 0, h) {}
      for i := 0 to |tx.vout|
        invariant Inv(p') && RemovedVia(m, p'.mapTx, tx.hash, i)
      {
        var o := OutPoint(tx.hash, i);
        SpenderIndex(p', o);
        if o in p'.mapNextTx {
          assert Spent(p', o);
          var child := p'.mapTx[p'.mapNextTx[o].hash];
          assert Filed(p', p'.mapNextTx[o].hash) && ViaAt(m, p'.mapTx, tx.hash, i, child.hash);
          assert Deeper(m, child.hash);
          RemovedViaPruned(m, p'.mapTx, tx.hash, i);
          DeeperShrinks(m, p'.mapTx, tx, child);
          ghost var was := p'.mapTx;
          p' := RemoveRecursive(p', child);
          forall h ensures CutAt(was, p'.mapTx, child.hash, h) { CutIs(was, child.hash, h); }
          ViaNext(p, was, p'.mapTx, tx.hash, i, child.hash);
        } else {
          ViaSkip(p, p'.mapTx, tx.hash, i);
        }
      }
      RootStays(p, p'.mapTx, tx.hash);
      p' := Erase(p', tx);
    }
  }

  lemma RootStays(p: Pool, m': map<Hash, Tx>, a: Hash)
    requires Inv(p) && a in p.mapTx && RemovedVia(p.mapTx, m', a, |p.mapTx[a].vout|)
    ensures a in m' && m'[a] == p.mapTx[a] && m' - {a} == p.mapTx - Descendants(p.mapTx, a)
  {
    var m := p.mapTx;
    forall c | Child(m, a, |m[a].vout|, c) ensures !Descends(m, a, c) {
      assert Deeper(m, c);
      if Descends(m, a, c) { DescendsDeeper(m, a, c); }
    }
    assert !Via(m, a, |m[a].vout|, a);
    assert ViaAt(m, m', a, |m[a].vout|, a);
    forall h ensures h in m' - {a} <==> h in m && h !in Descendants(m, a) {
      assert ViaAt(m, m', a, |m[a].vout|, h);
      if h in m { DescendsVia(m, h, a); }
    }
    forall h | h in m' - {a} ensures (m' - {a})[h] == m[h] { assert ViaAt(m, m', a, |m[a].vout|, h); }
  }

  /** CTxMemPool::remove without fRecursive. */
  method Remove(p: Pool, tx: Tx) returns (p': Pool)
    requires Inv(p) && Same(p, tx)
    ensures Inv(p') && p'.mapTx == p.mapTx - {tx.hash}
  {
    p' := p;
    if tx.hash in p.mapTx { p' := Erase(p, tx); }
  }

  /** Every pool input that points to a pool transaction points to an output it has. */
  ghost predicate RealInputs(m: map<Hash, Tx>) {
    forall h, o :: h in m && o in m[h].vin && o.hash in m ==> Real(m, o)
  }

  lemma DescendsOn(m: map<Hash, Tx>, h: Hash, o: OutPoint, a: Hash)
    requires Acyclic(m) && h in m && o in m[h].vin && Real(m, o) && Descends(m, o.hash, a)
    ensures Descends(m, h, a)
  {
    assert Deeper(m, h);
  }

  /** Removing the descendants of `a` leaves nothing that spends from what is gone. */
  ghost predicate OrphanFree(m: map<Hash, Tx>, a: Hash)
    requires Acyclic(m)
  {
    forall h {:trigger OrphanFreeAt(m, a, h)} :: OrphanFreeAt(m, a, h)
  }

  ghost predicate OrphanFreeAt(m: map<Hash, Tx>, a: Hash, h: Hash)
    requires Acyclic(m)
  {
    h in m && h !in Descendants(m, a) ==> forall o :: o in m[h].vin ==> o.hash !in Descendants(m, a)
  }

  /** An input of `h` that its pool parent does not have: `h` descends from the parent by another one. */
  ghost predicate DescendsAnyway(m: map<Hash, Tx>, h: Hash)
    requires Acyclic(m) && h in m
  {
    forall o :: o in m[h].vin && o.hash in m && !Real(m, o) ==> Descends(m, h, o.hash)
  }

  /** Exactly when recursive removal leaves no orphan, whichever transaction is removed. */
  lemma OrphanFreeIff(m: map<Hash, Tx>)
    requires Acyclic(m)
    ensures (forall a {:trigger OrphanFree(m, a)} :: a in m ==> OrphanFree(m, a))
       <==> (forall h {:trigger DescendsAnyway(m, h)} :: h in m ==> DescendsAnyway(m, h))
  {
    if forall a {:trigger OrphanFree(m, a)} :: a in m ==> OrphanFree(m, a) {
      forall h | h in m ensures DescendsAnyway(m, h) {
        forall o | o in m[h].vin && o.hash in m && !Real(m, o) ensures Descends(m, h, o.hash) {
          assert OrphanFree(m, o.hash);
          assert OrphanFreeAt(m, o.hash, h) && Descends(m, o.hash, o.hash);
        }
      }
    }
    if forall h {:trigger DescendsAnyway(m, h)} :: h in m ==> DescendsAnyway(m, h) {
      forall a | a in m ensures OrphanFree(m, a) {
        forall h ensures OrphanFreeAt(m, a, h) { DescendsAnywayAt(m, a, h); }
      }
    }
  }

  lemma DescendsAnywayAt(m: map<Hash, Tx>, a: Hash, h: Hash)
    requires Acyclic(m) && (h in m ==> DescendsAnyway(m, h))
    ensures OrphanFreeAt(m, a, h)
  {
    if h in m {
      forall o | o in m[h].vin && o.hash in Descendants(m, a) ensures h in Descendants(m, a) {
        if Real(m, o) { DescendsOn(m, h, o, a); } else { DescendsTrans(m, h, o.hash, a); }
      }
    }
  }

  /** So with real inputs there never is an orphan. */
  lemma NoOrphansLeft(m: map<Hash, Tx>, a: Hash)
    requires Acyclic(m) && RealInputs(m)
    ensures OrphanFree(m, a)
  {
    forall h ensures OrphanFreeAt(m, a, h) { DescendsAnywayAt(m, a, h); }
  }

  const PARENT := Tx(1, 0, 0, [OutPoint(9, 0)], [TxOut(5, [])], 100, 0)
  const STRAY := Tx(2, 0, 0, [OutPoint(1, 1)], [TxOut(5, [])], 100, 1)

  /** An input number that its parent does not have escapes the recursion: PARENT has one
      output, STRAY claims to spend its second. */
  lemma UnrealInputEscapes(p: Pool)
    requires p.mapTx == map[1 := PARENT, 2 := STRAY]
    requires p.mapNextTx == map[OutPoint(9, 0) := InPoint(1, 0), OutPoint(1, 1) := InPoint(2, 0)]
    ensures Inv(p) && !OrphanFree(p.mapTx, 1)
  {
    assert Filed(p, 1) && Filed(p, 2) && Deeper(p.mapTx, 1) && Deeper(p.mapTx, 2);
    assert Spent(p, OutPoint(9, 0)) && Spent(p, OutPoint(1, 1));
    assert Acyclic(p.mapTx);
    assert STRAY.vin == [OutPoint(1, 1)] && !Real(p.mapTx, OutPoint(1, 1));
    assert !Descends(p.mapTx, 2, 1) && Descends(p.mapTx, 1, 1);
    assert !OrphanFreeAt(p.mapTx, 1, 2);
  }

  // ---------------------------------------------------------------- conflicts

  ghost predicate SubAt(m: map<Hash, Tx>, m': map<Hash, Tx>, h: Hash) { h in m' ==> h in m && m'[h] == m[h] }

  /** Nothing was added. */
  ghost predicate Sub(m: map<Hash, Tx>, m': map<Hash, Tx>) { forall h {:trigger SubAt(m, m', h)} :: SubAt(m, m', h) }

  /** `h` is not a conflict by the first n inputs of `tx`. */
  ghost predicate ClearAt(m: map<Hash, Tx>, tx: Tx, n: nat, h: Hash) {
    h in m && h != tx.hash ==> forall i :: 0 <= i < n && i < |tx.vin| ==> tx.vin[i] !in m[h].vin
  }

  ghost predicate Clear(m: map<Hash, Tx>, tx: Tx, n: nat) {
    forall h {:trigger ClearAt(m, tx, n, h)} :: ClearAt(m, tx, n, h)
  }

  /** `h` descends from `c`, another transaction that spends one of the first n inputs of `tx`. */
  ghost predicate ConflictsBy(m: map<Hash, Tx>, tx: Tx, n: nat, h: Hash, c: Hash)
    requires Acyclic(m)
  {
    c in m && c != tx.hash && Descends(m, h, c) && exists i :: 0 <= i < n && i < |tx.vin| && tx.vin[i] in m[c].vin
  }

  /** If `h` is gone, it descends from a conflict. */
  ghost predicate BlamedAt(m: map<Hash, Tx>, m': map<Hash, Tx>, tx: Tx, n: nat, h: Hash)
    requires Acyclic(m)
  {
    h in m && h !in m' ==> exists c :: ConflictsBy(m, tx, n, h, c)
  }

  ghost predicate Blamed(m: map<Hash, Tx>, m': map<Hash, Tx>, tx: Tx, n: nat)
    requires Acyclic(m)
  {
    forall h {:trigger BlamedAt(m, m', tx, n, h)} :: BlamedAt(m, m', tx, n, h)
  }

  lemma BlamedOn(m: map<Hash, Tx>, m': map<Hash, Tx>, tx: Tx, n: nat)
    requires Acyclic(m) && Blamed(m, m', tx, n)
    ensures Blamed(m, m', tx, n + 1)
  {
    var n' := n + 1;
    forall h ensures BlamedAt(m, m', tx, n', h) {
      assert BlamedAt(m, m', tx, n, h);
      if c :| ConflictsBy(m, tx, n, h, c) { assert ConflictsBy(m, tx, n', h, c); }
    }
  }

  /** The spender `c` of input n goes, with its descendants. */
  lemma ConflictStep(m: map<Hash, Tx>, m': map<Hash, Tx>, m'': map<Hash, Tx>, tx: Tx, n: nat, c: Hash)
    requires Acyclic(m) && Acyclic(m') && Sub(m, m') && Blamed(m, m', tx, n) && n < |tx.vin|
    requires c in m' && c != tx.hash && tx.vin[n] in m'[c].vin
    requires forall h {:trigger CutAt(m', m'', c, h)} :: CutAt(m', m'', c, h)
    ensures Sub(m, m'') && Sub(m', m'') && Blamed(m, m'', tx, n + 1)
  {
    var n' := n + 1;
    BlamedOn(m, m', tx, n);
    assert SubAt(m, m', c);
    forall h ensures SubAt(m, m'', h) && SubAt(m', m'', h) && BlamedAt(m, m'', tx, n', h) {
      assert CutAt(m', m'', c, h) && SubAt(m, m', h) && BlamedAt(m, m', tx, n', h);
      if h in m' && h !in m'' {
        forall x | x in m' ensures x in m && m'[x] == m[x] { assert SubAt(m, m', x); }
        SubDescends(m, m', h, c);
        assert ConflictsBy(m, tx, n', h, c);
      }
    }
  }

  lemma ClearSub(m: map<Hash, Tx>, m': map<Hash, Tx>, tx: Tx, n: nat)
    requires Clear(m, tx, n) && Sub(m, m')
    ensures Clear(m', tx, n)
  {
    forall h ensures ClearAt(m', tx, n, h) { assert ClearAt(m, tx, n, h) && SubAt(m, m', h); }
  }

  lemma ClearOn(m: map<Hash, Tx>, tx: Tx, n: nat)
    requires Clear(m, tx, n) && n < |tx.vin| && forall h :: h in m && h != tx.hash ==> tx.vin[n] !in m[h].vin
    ensures Clear(m, tx, n + 1)
  {
    var n' := n + 1;
    forall h ensures ClearAt(m, tx, n', h) { assert ClearAt(m, tx, n, h); }
  }

  /** CTxMemPool::removeConflicts: what is left has no conflict with `tx`, and only conflicts
      and their descendants have gone. */
  method RemoveConflicts(p: Pool, tx: Tx) returns (p': Pool)
    requires Inv(p) && Same(p, tx)
    ensures Inv(p') && Sub(p.mapTx, p'.mapTx)
    ensures Clear(p'.mapTx, tx, |tx.vin|) && Blamed(p.mapTx, p'.mapTx, tx, |tx.vin|)
  {
    p' := p;
    for n := 0 to |tx.vin|
      invariant Inv(p') && Sub(p.mapTx, p'.mapTx)
      invariant Clear(p'.mapTx, tx, n) && Blamed(p.mapTx, p'.mapTx, tx, n)
    {
      var o := tx.vin[n];
      SpenderIndex(p', o);
      BlamedOn(p.mapTx, p'.mapTx, tx, n);
      if o in p'.mapNextTx && p'.mapNextTx[o].hash != tx.hash {
        assert Spent(p', o);
        var c := p'.mapTx[p'.mapNextTx[o].hash];
        assert Filed(p', p'.mapNextTx[o].hash);
        ghost var was := p'.mapTx;
        p' := RemoveRecursive(p', c);
        forall h ensures CutAt(was, p'.mapTx, c.hash, h) { CutIs(was, c.hash, h); }
        ConflictStep(p.mapTx, was, p'.mapTx, tx, n, c.hash);
        ClearSub(was, p'.mapTx, tx, n);
        SpenderIndex(p', o);
        assert CutAt(was, p'.mapTx, c.hash, c.hash) && Descends(was, c.hash, c.hash);
        forall h | h in p'.mapTx && h != tx.hash ensures o !in p'.mapTx[h].vin { assert SubAt(was, p'.mapTx, h); }
      }
      ClearOn(p'.mapTx, tx, n);
    }
  }

  lemma {:induction false} SubDescends(m: map<Hash, Tx>, m': map<Hash, Tx>, h: Hash, a: Hash)
    requires Acyclic(m) && Acyclic(m') && (forall x :: x in m' ==> x in m && m'[x] == m[x])
    requires Descends(m', h, a)
    ensures Descends(m, h, a)
    decreases m'[h].depth
  {
    if h != a {
      var o :| o in m'[h].vin && Real(m', o) && Descends(m', o.hash, a);
      assert Deeper(m, h) && Deeper(m', h);
      SubDescends(m, m', o.hash, a);
      assert Real(m, o);
    }
  }

  // ---------------------------------------------------------------- accept

  /** The hash model for `tx` against everything in the pool. */
  ghost predicate Fits(p: Pool, tx: Tx) {
    forall h {:trigger FitsAt(p, tx, h)} :: h in p.mapTx ==> FitsAt(p, tx, h)
  }

  ghost predicate FitsAt(p: Pool, tx: Tx, h: Hash)
    requires h in p.mapTx
  {
    HashPair(tx, p.mapTx[h]) && HashPair(p.mapTx[h], tx)
  }

  function Next(next: map<OutPoint, InPoint>, tx: Tx, n: nat): map<OutPoint, InPoint>
    requires n <= |tx.vin|
  {
    if n == 0 then next else Next(next, tx, n - 1)[tx.vin[n - 1] := InPoint(tx.hash, n - 1)]
  }

  lemma {:induction false} NextHit(next: map<OutPoint, InPoint>, tx: Tx, n: nat, i: nat)
    requires i < n <= |tx.vin| && Distinct(tx.vin)
    ensures tx.vin[i] in Next(next, tx, n) && Next(next, tx, n)[tx.vin[i]] == InPoint(tx.hash, i)
  {
    if i < n - 1 { NextHit(next, tx, n - 1, i); }
  }

  lemma {:induction false} NextMiss(next: map<OutPoint, InPoint>, tx: Tx, n: nat, o: OutPoint)
    requires n <= |tx.vin| && o !in tx.vin
    ensures o in Next(next, tx, n) <==> o in next
    ensures o in next ==> Next(next, tx, n)[o] == next[o]
  {
    if n > 0 { NextMiss(next, tx, n - 1, o); }
  }

  ghost predicate MayAdd(p: Pool, tx: Tx) {
    && Inv(p) && Fits(p, tx) && Distinct(tx.vin) && !tx.IsCoinBase() && tx.hash !in p.mapTx && HashPair(tx, tx)
    && forall i :: 0 <= i < |tx.vin| ==> tx.vin[i] !in p.mapNextTx
  }

  function Added(p: Pool, tx: Tx): Pool { Pool(p.mapTx[tx.hash := tx], Next(p.mapNextTx, tx, |tx.vin|)) }

  lemma AddedFiled(p: Pool, tx: Tx, h: Hash)
    requires MayAdd(p, tx) && h in Added(p, tx).mapTx
    ensures Filed(Added(p, tx), h)
  {
    var p' := Added(p, tx);
    if h != tx.hash { assert Filed(p, h); }
    forall i | 0 <= i < |p'.mapTx[h].vin|
      ensures p'.mapTx[h].vin[i] in p'.mapNextTx && p'.mapNextTx[p'.mapTx[h].vin[i]] == InPoint(h, i)
    {
      if h == tx.hash {
        NextHit(p.mapNextTx, tx, |tx.vin|, i);
      } else {
        NextMiss(p.mapNextTx, tx, |tx.vin|, p'.mapTx[h].vin[i]);
      }
    }
  }

  lemma AddedDeeper(p: Pool, tx: Tx, h: Hash)
    requires MayAdd(p, tx) && h in Added(p, tx).mapTx
    ensures Deeper(Added(p, tx).mapTx, h)
  {
    var m := Added(p, tx).mapTx;
    forall o | o in m[h].vin && o.hash in m ensures m[o.hash].depth < m[h].depth {
      if h != tx.hash { assert Filed(p, h) && Deeper(p.mapTx, h) && FitsAt(p, tx, h); }
      else if o.hash != tx.hash { assert FitsAt(p, tx, o.hash) && Filed(p, o.hash); }
    }
  }

  lemma AddedKeeps(p: Pool, tx: Tx)
    requires MayAdd(p, tx)
    ensures Inv(Added(p, tx))
  {
    var p' := Added(p, tx);
    forall h | h in p'.mapTx ensures Filed(p', h) && Deeper(p'.mapTx, h) {
      AddedFiled(p, tx, h);
      AddedDeeper(p, tx, h);
    }
    forall o | o in p'.mapNextTx ensures Spent(p', o) {
      if o in tx.vin {
        var i :| 0 <= i < |tx.vin| && tx.vin[i] == o;
        NextHit(p.mapNextTx, tx, |tx.vin|, i);
      } else {
        NextMiss(p.mapNextTx, tx, |tx.vin|, o);
        assert Spent(p, o);
      }
    }
  }

  /** CTxMemPool::addUnchecked. */
  method AddUnchecked(p: Pool, tx: Tx) returns (p': Pool)
    ensures p' == Added(p, tx)
  {
    var next := p.mapNextTx;
    for i := 0 to |tx.vin|
      invariant next == Next(p.mapNextTx, tx, i)
    {
      next := next[tx.vin[i] := InPoint(tx.hash, i)];
    }
    p' := Pool(p.mapTx[tx.hash := tx], next);
  }

  const MIN_RELAY_TX_FEE: int := 1000

  /** What decides about a transaction besides the pool and its inputs. */
  datatype Policy = Policy(
    rules: Rules,                           // signatures, maturity and minimum fee, for ConnectInputs
    standard: Tx -> bool,                   // IsStandard and the lock time
    inputsStandard: (Tx, PrevMap) -> bool,  // AreInputsStandard
    relayFee: Tx -> int,                    // GetMinFee(1000, GMF_RELAY, nSize)
    limited: bool)                          // the rate limiter refuses a transaction below MIN_RELAY_TX_FEE

  /** Where accept looks up inputs: the database first, then the pool. */
  function PoolSource(p: Pool, txdb: Index, disk: Disk): Source { Source(txdb, map[], false, disk, p.mapTx) }

  /** The inputs are there, standard, unspent, signed, and pay enough. */
  ghost predicate InputsPay(pol: Policy, src: Source, tx: Tx) {
    var inputs := InputsAt(src, tx.vin);
    var nFees := InputSum(inputs, tx.vin) - ValueOut(tx.vout);
    && src.AllFetchable(tx.vin)
    && pol.inputsStandard(tx, inputs)
    && nFees >= pol.relayFee(tx) && (nFees < MIN_RELAY_TX_FEE ==> !pol.limited)
    && InputsOk(pol.rules, inputs, tx)
  }

  /** Exactly the transactions that accept takes. */
  ghost predicate Acceptable(p: Pool, tx: Tx, pol: Policy, txdb: Index, disk: Disk, fCheckInputs: bool) {
    && Loose(p, tx, pol)
    && (fCheckInputs ==> tx.hash !in txdb && InputsPay(pol, PoolSource(p, txdb, disk), tx))
  }

  /** What accept demands without looking at inputs. */
  ghost predicate Loose(p: Pool, tx: Tx, pol: Policy) {
    && CheckTransaction(tx) && !tx.IsCoinBase() && !tx.IsCoinStake() && pol.standard(tx)
    && tx.hash !in p.mapTx
    && forall i :: 0 <= i < |tx.vin| ==> tx.vin[i] !in p.mapNextTx
  }

  /** The part of accept for fCheckInputs. */
  method CheckPays(pol: Policy, src: Source, tx: Tx) returns (ok: bool)
    requires !tx.IsCoinBase()
    ensures ok <==> InputsPay(pol, src, tx)
  {
    var fetched, inputs := FetchInputs(src, tx);
    if !fetched {
      return false;
    }
    assert inputs == InputsAt(src, tx.vin);
    if !pol.inputsStandard(tx, inputs) {
      return false;
    }
    var nFees := InputSum(inputs, tx.vin) - ValueOut(tx.vout);
    if nFees < pol.relayFee(tx) || (nFees < MIN_RELAY_TX_FEE && pol.limited) {
      return false;
    }
    var queue;
    ok, queue := ConnectInputs(pol.rules, inputs, map[], tx, MEMPOOL_POS, false);
  }

  /** CTxMemPool::accept. */
  method Accept(p: Pool, tx: Tx, pol: Policy, txdb: Index, disk: Disk, fCheckInputs: bool) returns (ok: bool, p': Pool)
    requires Inv(p) && Fits(p, tx) && HashPair(tx, tx)
    ensures ok <==> Acceptable(p, tx, pol, txdb, disk, fCheckInputs)
    ensures Inv(p') && p' == if ok then Added(p, tx) else p
    ensures ok && fCheckInputs ==>
      var value := InputSum(InputsAt(PoolSource(p, txdb, disk), tx.vin), tx.vin);
      value >= ValueOut(tx.vout) && value >= ValueOut(tx.vout) + pol.relayFee(tx)
  {
    if !CheckTransaction(tx) || tx.IsCoinBase() || tx.IsCoinStake() || !pol.standard(tx) || tx.hash in p.mapTx {
      return false, p;
    }
    if fCheckInputs && tx.hash in txdb {
      return false, p;
    }
    for i := 0 to |tx.vin|
      invariant forall j :: 0 <= j < i ==> tx.vin[j] !in p.mapNextTx
    {
      if tx.vin[i] in p.mapNextTx {
        return false, p;
      }
    }
    if fCheckInputs {
      var pays := CheckPays(pol, PoolSource(p, txdb, disk), tx);
      if !pays {
        return false, p;
      }
    }
    AddedKeeps(p, tx);
    p' := AddUnchecked(p, tx);
    ok := true;
  }

  // ---------------------------------------------------------------- following the chain

  /** The hash model for a set of transactions. */
  ghost predicate Model(u: set<Tx>) { forall a, b {:trigger HashPair(a, b)} :: a in u && b in u ==> HashPair(a, b) }

  ghost predicate Within(p: Pool, u: set<Tx>) { forall h :: h in p.mapTx ==> p.mapTx[h] in u }

  lemma WithinFits(p: Pool, u: set<Tx>, tx: Tx)
    requires Inv(p) && Within(p, u) && Model(u) && tx in u
    ensures Fits(p, tx) && Same(p, tx) && HashPair(tx, tx)
  {
    if tx.hash in p.mapTx { assert Filed(p, tx.hash) && HashPair(tx, p.mapTx[tx.hash]); }
    forall h | h in p.mapTx ensures FitsAt(p, tx, h) {
      assert p.mapTx[h] in u;
      assert HashPair(tx, p.mapTx[h]) && HashPair(p.mapTx[h], tx);
    }
  }

  lemma SubWithin(p: Pool, p': Pool, u: set<Tx>)
    requires Within(p, u) && Sub(p.mapTx, p'.mapTx)
    ensures Within(p', u)
  {
    forall h | h in p'.mapTx ensures p'.mapTx[h] in u { assert SubAt(p.mapTx, p'.mapTx, h); }
  }

  /** Outpoint `o` is an output of one of the transactions `u`. */
  ghost predicate RootedIn(u: set<Tx>, o: OutPoint) { exists t :: t in u && t.hash == o.hash && o.n < |t.vout| }

  ghost predicate TxRooted(u: set<Tx>, tx: Tx) { forall o :: o in tx.vin ==> RootedIn(u, o) }

  /** Every input of the pool names an output that some known transaction has. */
  ghost predicate Rooted(m: map<Hash, Tx>, u: set<Tx>) { forall h :: h in m ==> TxRooted(u, m[h]) }

  /** Then pool parents have the outputs too, since an id belongs to one transaction. */
  lemma RootedIsReal(p: Pool, u: set<Tx>)
    requires Inv(p) && Within(p, u) && Model(u) && Rooted(p.mapTx, u)
    ensures RealInputs(p.mapTx)
  {
    var m := p.mapTx;
    forall h, o | h in m && o in m[h].vin && o.hash in m ensures Real(m, o) {
      assert TxRooted(u, m[h]);
      var t :| t in u && t.hash == o.hash && o.n < |t.vout|;
      assert Filed(p, o.hash) && HashPair(t, m[o.hash]);
    }
  }

  lemma RootedMore(m: map<Hash, Tx>, u: set<Tx>, u': set<Tx>)
    requires Rooted(m, u) && u <= u'
    ensures Rooted(m, u')
  {
    forall h, o | h in m && o in m[h].vin ensures RootedIn(u', o) {
      assert TxRooted(u, m[h]);
      var t :| t in u && t.hash == o.hash && o.n < |t.vout|;
      assert t in u';
    }
  }

  ghost predicate DiskWithin(disk: Disk, u: set<Tx>) { forall q :: q in disk ==> disk[q] in u }

  /** FetchInputs finds nothing but existing outputs. */
  lemma FetchedRooted(p: Pool, txdb: Index, disk: Disk, u: set<Tx>, tx: Tx)
    requires Inv(p) && Within(p, u) && WellFormed(txdb, disk) && DiskWithin(disk, u)
    requires PoolSource(p, txdb, disk).AllFetchable(tx.vin)
    ensures TxRooted(u, tx)
  {
    var src := PoolSource(p, txdb, disk);
    forall o | o in tx.vin ensures RootedIn(u, o) {
      var i :| 0 <= i < |tx.vin| && tx.vin[i] == o;
      assert src.Fetchable(tx.vin[i]);
      var t := src.Lookup(o.hash).value.tx;
      if o.hash in p.mapTx { assert Filed(p, o.hash); }
      assert t in u && t.hash == o.hash && o.n < |t.vout|;
    }
  }

  lemma AcceptedRooted(p: Pool, tx: Tx, pol: Policy, txdb: Index, disk: Disk, u: set<Tx>)
    requires Inv(p) && Within(p, u) && Rooted(p.mapTx, u) && tx in u && WellFormed(txdb, disk) && DiskWithin(disk, u)
    requires Acceptable(p, tx, pol, txdb, disk, true)
    ensures Within(Added(p, tx), u) && Rooted(Added(p, tx).mapTx, u)
  {
    hide InputsOk, CheckTransaction, Inv, Next, RootedIn;
    assert PoolSource(p, txdb, disk).AllFetchable(tx.vin);
    FetchedRooted(p, txdb, disk, u, tx);
  }

  /** The inputs of a connected block's transactions are existing outputs, of the chain or of the
      block. */
  lemma {:induction false} ConnectedRooted(db: Index, disk: Disk, ts: seq<Stored>, u: set<Tx>, k: nat)
    requires WellFormed(db, disk) && Connectable(db, ts) && OnDisk(disk, ts) && DiskWithin(disk, u) && k < |ts|
    ensures forall o :: o in ts[k].tx.Spends() ==> RootedIn(u, o)
    decreases |ts|
  {
    var init := ts[..|ts| - 1];
    if k < |init| {
      ConnectedRooted(db, disk, init, u, k);
    } else {
      TotalConnectAll(db, disk, init);
      var view := ConnectAll(db, init);
      assert StepOk(view, ts[k]);
      forall o | o in ts[k].tx.Spends() ensures RootedIn(u, o) {
        assert Unspent(view, o);
        var t := disk[view[o.hash].pos];
        assert t in u && t.hash == o.hash && o.n < |t.vout|;
      }
    }
  }

  /** `tx` is not in the pool, and no pool transaction spends one of its inputs. */
  ghost predicate Settled(m: map<Hash, Tx>, tx: Tx) { tx.hash !in m && Clear(m, tx, |tx.vin|) }

  ghost predicate AllSettled(m: map<Hash, Tx>, txs: seq<Tx>) {
    forall i {:trigger txs[i]} :: 0 <= i < |txs| ==> Settled(m, txs[i])
  }

  lemma AllSettledSub(m: map<Hash, Tx>, m': map<Hash, Tx>, txs: seq<Tx>)
    requires AllSettled(m, txs) && Sub(m, m')
    ensures AllSettled(m', txs)
  {
    forall i | 0 <= i < |txs| ensures Settled(m', txs[i]) {
      ClearSub(m, m', txs[i], |txs[i].vin|);
      assert Settled(m, txs[i]) && SubAt(m, m', txs[i].hash);
    }
  }

  /** The pool after the transactions of the disconnected blocks were offered to it, unchecked. */
  ghost function Offered(p: Pool, vResurrect: seq<Tx>, pol: Policy): Pool {
    if vResurrect == [] then p
    else
      var before, tx := Offered(p, vResurrect[..|vResurrect| - 1], pol), vResurrect[|vResurrect| - 1];
      if Loose(before, tx, pol) then Added(before, tx) else before
  }

  /** `h` is one of `vDelete`, or descends from a transaction that conflicts with one of them. */
  ghost predicate Condemned(m: map<Hash, Tx>, vDelete: seq<Tx>, h: Hash)
    requires Acyclic(m)
  {
    exists i {:trigger vDelete[i]} :: 0 <= i < |vDelete| && (
      h == vDelete[i].hash || exists c :: ConflictsBy(m, vDelete[i], |vDelete[i].vin|, h, c))
  }

  /** Only condemned transactions are gone. */
  ghost predicate Spared(m: map<Hash, Tx>, m': map<Hash, Tx>, vDelete: seq<Tx>)
    requires Acyclic(m)
  {
    forall h {:trigger SparedAt(m, m', vDelete, h)} :: SparedAt(m, m', vDelete, h)
  }

  ghost predicate SparedAt(m: map<Hash, Tx>, m': map<Hash, Tx>, vDelete: seq<Tx>, h: Hash)
    requires Acyclic(m)
  {
    h in m && h !in m' ==> Condemned(m, vDelete, h)
  }

  lemma SubTrans(m: map<Hash, Tx>, m1: map<Hash, Tx>, m2: map<Hash, Tx>)
    requires Sub(m, m1) && Sub(m1, m2)
    ensures Sub(m, m2)
  {
    forall h ensures SubAt(m, m2, h) { assert SubAt(m, m1, h) && SubAt(m1, m2, h); }
  }

  lemma SparedOn(m: map<Hash, Tx>, m1: map<Hash, Tx>, m2: map<Hash, Tx>, m3: map<Hash, Tx>, done: seq<Tx>, tx: Tx)
    requires Acyclic(m) && Acyclic(m2) && Sub(m, m1) && Spared(m, m1, done)
    requires m2 == m1 - {tx.hash} && Blamed(m2, m3, tx, |tx.vin|)
    ensures Spared(m, m3, done + [tx])
  {
    var all := done + [tx];
    forall h ensures SparedAt(m, m3, all, h) {
      assert SparedAt(m, m1, done, h) && BlamedAt(m2, m3, tx, |tx.vin|, h);
      assert all[|done|] == tx;
      if h in m && h !in m1 {
        var i :| 0 <= i < |done| && (h == done[i].hash || exists c :: ConflictsBy(m, done[i], |done[i].vin|, h, c));
        assert all[i] == done[i];
      } else if h in m1 && h in m2 && h !in m3 {
        var c :| ConflictsBy(m2, tx, |tx.vin|, h, c);
        ConflictsInMore(m, m1, m2, tx, h, c);
      }
    }
  }

  lemma ConflictsInMore(m: map<Hash, Tx>, m1: map<Hash, Tx>, m2: map<Hash, Tx>, tx: Tx, h: Hash, c: Hash)
    requires Acyclic(m) && Acyclic(m2) && Sub(m, m1) && m2 == m1 - {tx.hash} && ConflictsBy(m2, tx, |tx.vin|, h, c)
    ensures ConflictsBy(m, tx, |tx.vin|, h, c)
  {
    forall x | x in m2 ensures x in m && m2[x] == m[x] { assert SubAt(m, m1, x); }
    SubDescends(m, m2, h, c);
  }

  /** The end of Reorganize: the transactions of the disconnected blocks are offered to the
      pool, those of the connected ones are removed with everything that conflicts. */
  method AfterReorganize(p: Pool, vResurrect: seq<Tx>, vDelete: seq<Tx>, pol: Policy, ghost u: set<Tx>)
    returns (p': Pool)
    requires Inv(p) && Within(p, u) && Model(u) && Rooted(p.mapTx, u)
    requires forall i :: 0 <= i < |vResurrect| ==> vResurrect[i] in u && TxRooted(u, vResurrect[i])
    requires forall i :: 0 <= i < |vDelete| ==> vDelete[i] in u
    ensures Inv(p') && Within(p', u) && Rooted(p'.mapTx, u)
    ensures AllSettled(p'.mapTx, vDelete)
    ensures Inv(Offered(p, vResurrect, pol))
    ensures var m := Offered(p, vResurrect, pol).mapTx; Sub(m, p'.mapTx) && Spared(m, p'.mapTx, vDelete)
  {
    p' := Resurrect(p, vResurrect, pol, u);
    ghost var m := p'.mapTx;
    for i := 0 to |vDelete|
      invariant Inv(p') && Within(p', u) && AllSettled(p'.mapTx, vDelete[..i])
      invariant Sub(m, p'.mapTx) && Spared(m, p'.mapTx, vDelete[..i])
    {
      assert vDelete[..i + 1] == vDelete[..i] + [vDelete[i]];
      p' := RemoveConfirmed(p', vDelete[..i], vDelete[i], m, u);
    }
    assert vDelete[..|vDelete|] == vDelete;
    forall h | h in p'.mapTx ensures TxRooted(u, p'.mapTx[h]) { assert SubAt(m, p'.mapTx, h); }
  }

  method Resurrect(p: Pool, vResurrect: seq<Tx>, pol: Policy, ghost u: set<Tx>) returns (p': Pool)
    requires Inv(p) && Within(p, u) && Model(u) && Rooted(p.mapTx, u)
    requires forall i :: 0 <= i < |vResurrect| ==> vResurrect[i] in u && TxRooted(u, vResurrect[i])
    ensures p' == Offered(p, vResurrect, pol) && Inv(p') && Within(p', u) && Rooted(p'.mapTx, u)
  {
    p' := p;
    for i := 0 to |vResurrect|
      invariant p' == Offered(p, vResurrect[..i], pol) && Inv(p') && Within(p', u) && Rooted(p'.mapTx, u)
    {
      WithinFits(p', u, vResurrect[i]);
      assert vResurrect[..i + 1][..i] == vResurrect[..i];
      var ok;
      ok, p' := Accept(p', vResurrect[i], pol, map[], map[], false);
    }
    assert vResurrect[..|vResurrect|] == vResurrect;
  }

  method RemoveConfirmed(p: Pool, ghost done: seq<Tx>, tx: Tx, ghost m: map<Hash, Tx>, ghost u: set<Tx>)
    returns (p': Pool)
    requires Inv(p) && Within(p, u) && Model(u) && tx in u && AllSettled(p.mapTx, done)
    requires Acyclic(m) && Sub(m, p.mapTx) && Spared(m, p.mapTx, done)
    ensures Inv(p') && Within(p', u) && AllSettled(p'.mapTx, done + [tx])
    ensures Sub(m, p'.mapTx) && Spared(m, p'.mapTx, done + [tx])
  {
    WithinFits(p, u, tx);
    var p1 := Remove(p, tx);
    assert Sub(p.mapTx, p1.mapTx);
    SubWithin(p, p1, u);
    AllSettledSub(p.mapTx, p1.mapTx, done);
    p' := RemoveConflicts(p1, tx);
    SubWithin(p1, p', u);
    AllSettledSub(p1.mapTx, p'.mapTx, done);
    assert SubAt(p1.mapTx, p'.mapTx, tx.hash);
    SubTrans(m, p.mapTx, p1.mapTx);
    SubTrans(m, p1.mapTx, p'.mapTx);
    SparedOn(m, p.mapTx, p1.mapTx, p'.mapTx, done, tx);
  }

  ghost function HashesOf(vtx: seq<Tx>): set<Hash> { set i | 0 <= i < |vtx| :: vtx[i].hash }

  /** The end of SetBestChainInner removes the transactions of the block and nothing else. So
      the pool has no conflict with the block exactly if it had none but block transactions. */
  method AfterAttach(p: Pool, vtx: seq<Tx>, ghost u: set<Tx>) returns (p': Pool)
    requires Inv(p) && Within(p, u) && Model(u) && forall i :: 0 <= i < |vtx| ==> vtx[i] in u
    ensures Inv(p') && p'.mapTx == p.mapTx - HashesOf(vtx)
    ensures AllSettled(p'.mapTx, vtx) <==>
      forall h, i, o :: h in p.mapTx && h !in HashesOf(vtx) && 0 <= i < |vtx| && o in vtx[i].vin
        ==> o !in p.mapTx[h].vin
  {
    p' := p;
    for i := 0 to |vtx|
      invariant Inv(p') && Within(p', u) && p'.mapTx == p.mapTx - HashesOf(vtx[..i])
    {
      WithinFits(p', u, vtx[i]);
      assert vtx[..i + 1] == vtx[..i] + [vtx[i]];
      p' := Remove(p', vtx[i]);
    }
    assert vtx[..|vtx|] == vtx;
    ConflictsLeft(p.mapTx, p'.mapTx, vtx);
  }

  lemma ConflictsLeft(m: map<Hash, Tx>, m': map<Hash, Tx>, vtx: seq<Tx>)
    requires m' == m - HashesOf(vtx)
    ensures AllSettled(m', vtx) <==>
      forall h, i, o :: h in m && h !in HashesOf(vtx) && 0 <= i < |vtx| && o in vtx[i].vin ==> o !in m[h].vin
  {
    if AllSettled(m', vtx) {
      forall h, i, o | h in m && h !in HashesOf(vtx) && 0 <= i < |vtx| && o in vtx[i].vin ensures o !in m[h].vin {
        assert Settled(m', vtx[i]) && ClearAt(m', vtx[i], |vtx[i].vin|, h);
        assert vtx[i].hash in HashesOf(vtx);
      }
    }
    if forall h, i, o :: h in m && h !in HashesOf(vtx) && 0 <= i < |vtx| && o in vtx[i].vin ==> o !in m[h].vin {
      forall i | 0 <= i < |vtx| ensures Settled(m', vtx[i]) {
        assert vtx[i].hash in HashesOf(vtx);
        forall h ensures ClearAt(m', vtx[i], |vtx[i].vin|, h) {}
      }
    }
  }

  const RIVAL := Tx(3, 0, 0, [OutPoint(9, 0)], [TxOut(4, [])], 100, 0)

  /** PARENT stays in the pool when a block with RIVAL, which spends the same output, is attached. */
  lemma ConflictCanStay()
    ensures var m := map[PARENT.hash := PARENT]; !AllSettled(m - HashesOf([RIVAL]), [RIVAL])
  {
    var m, vtx := map[PARENT.hash := PARENT], [RIVAL];
    assert PARENT.hash in m && PARENT.hash !in HashesOf(vtx);
    assert vtx[0].vin[0] == OutPoint(9, 0) == PARENT.vin[0];
    assert OutPoint(9, 0) in vtx[0].vin && OutPoint(9, 0) in m[PARENT.hash].vin;
    ConflictsLeft(m, m - HashesOf(vtx), vtx);
  }

  // ---------------------------------------------------------------- CTxMemPool

  /** The pool over a whole run. `known` are all transactions stored or offered so far: an id is the
      id of one of them only, and every pool input is an output of one of them. */
  class TxMemPool {
    var p: Pool
    ghost var known: set<Tx>

    ghost predicate Valid()
      reads this
    {
      Inv(p) && Within(p, known) && Model(known) && Rooted(p.mapTx, known)
    }

    constructor ()
      ensures Valid() && p == Pool(map[], map[]) && known == {}
    {
      p := Pool(map[], map[]);
      known := {};
    }

    /** More transactions become known to the node. */
    ghost method Learn(more: set<Tx>)
      requires Valid() && Model(known + more)
      modifies this`known
      ensures Valid() && known == old(known) + more
    {
      RootedMore(p.mapTx, known, known + more);
      known := known + more;
    }

    /** CTxMemPool::accept of a loose transaction, against the index of the chain. */
    method AcceptTx(tx: Tx, pol: Policy, txdb: Index, disk: Disk) returns (ok: bool)
      requires Valid() && tx in known && WellFormed(txdb, disk) && DiskWithin(disk, known)
      modifies this`p
      ensures Valid() && (ok <==> Acceptable(old(p), tx, pol, txdb, disk, true))
      ensures p == if ok then Added(old(p), tx) else old(p)
    {
      hide Acceptable, Inv, Added, Within, Rooted, Fits, Model;
      WithinFits(p, known, tx);
      if Acceptable(p, tx, pol, txdb, disk, true) { AcceptedRooted(p, tx, pol, txdb, disk, known); }
      ok, p := Accept(p, tx, pol, txdb, disk, true);
    }

    /** The pool's part of a reorganisation. */
    method FollowReorganize(vResurrect: seq<Tx>, vDelete: seq<Tx>, pol: Policy)
      requires Valid()
      requires forall i :: 0 <= i < |vResurrect| ==> vResurrect[i] in known && TxRooted(known, vResurrect[i])
      requires forall i :: 0 <= i < |vDelete| ==> vDelete[i] in known
      modifies this`p
      ensures Valid() && AllSettled(p.mapTx, vDelete) && Inv(Offered(old(p), vResurrect, pol))
      ensures var m := Offered(old(p), vResurrect, pol).mapTx; Sub(m, p.mapTx) && Spared(m, p.mapTx, vDelete)
    {
      p := AfterReorganize(p, vResurrect, vDelete, pol, known);
    }

    /** The pool's part of attaching a block. */
    method FollowAttach(vtx: seq<Tx>)
      requires Valid() && forall i :: 0 <= i < |vtx| ==> vtx[i] in known
      modifies this`p
      ensures Valid() && p.mapTx == old(p).mapTx - HashesOf(vtx)
    {
      p := AfterAttach(p, vtx, known);
    }

    /** CTxMemPool::remove. Recursive removal leaves nothing that spends from what is gone. */
    method RemoveTx(tx: Tx, fRecursive: bool)
      requires Valid() && tx in known
      modifies this`p
      ensures Valid()
      ensures !fRecursive ==> p.mapTx == old(p).mapTx - {tx.hash}
      ensures fRecursive && tx.hash !in old(p).mapTx ==> p.mapTx == old(p).mapTx
      ensures fRecursive && tx.hash in old(p).mapTx ==>
        p.mapTx == old(p).mapTx - Descendants(old(p).mapTx, tx.hash) && OrphanFree(old(p).mapTx, tx.hash)
    {
      WithinFits(p, known, tx);
      RootedIsReal(p, known);
      NoOrphansLeft(p.mapTx, tx.hash);
      if fRecursive {
        p := RemoveRecursive(p, tx);
      } else {
        p := Remove(p, tx);
      }
    }

    method RemoveConflictsOf(tx: Tx)
      requires Valid() && tx in known
      modifies this`p
      ensures Valid() && Sub(old(p).mapTx, p.mapTx)
      ensures Clear(p.mapTx, tx, |tx.vin|) && Blamed(old(p).mapTx, p.mapTx, tx, |tx.vin|)
    {
      WithinFits(p, known, tx);
      ghost var p0 := p;
      p := RemoveConflicts(p, tx);
      SubWithin(p0, p, known);
      forall h | h in p.mapTx ensures TxRooted(known, p.mapTx[h]) { assert SubAt(p0.mapTx, p.mapTx, h); }
    }

    method ClearAll()
      requires Valid()
      modifies this`p
      ensures Valid() && p == Pool(map[], map[])
    {
      p := Pool(map[], map[]);
    }
  }
}
