/** Merkle trees in a flat array (src/main.h: CBlock::BuildMerkleTree, GetMerkleBranch,
    CheckMerkleBranch). The hash of two hashes is a parameter. */
module Merkle {

  type Digest = nat

  function Min(a: int, b: int): int { if a < b then a else b }

  function Half(n: nat): nat { n / 2 }

  /** Node `i` of the level above `s`: a pair is hashed, a last odd node with itself. */
  function Above(H: (Digest, Digest) -> Digest, s: seq<Digest>, i: nat): Digest
    requires 2 * i < |s|
  {
    H(s[2 * i], s[Min(2 * i + 1, |s| - 1)])
  }

  function NextLevel(H: (Digest, Digest) -> Digest, s: seq<Digest>): (r: seq<Digest>)
    ensures |r| == Half(|s| + 1)
  {
    seq(Half(|s| + 1), i requires 0 <= i < Half(|s| + 1) => Above(H, s, i))
  }

  /** The root, level by level. */
  function Root(H: (Digest, Digest) -> Digest, s: seq<Digest>): Digest
    decreases |s|
  {
    if s == [] then 0 else if |s| == 1 then s[0] else Root(H, NextLevel(H, s))
  }

  /** All levels one after the other. */
  function Flat(H: (Digest, Digest) -> Digest, s: seq<Digest>): seq<Digest>
    decreases |s|
  {
    if |s| <= 1 then s else s + Flat(H, NextLevel(H, s))
  }

  /** The neighbour of node `i` in a level of `n` nodes. */
  function Sibling(i: nat, n: nat): int { Min(if i % 2 == 0 then i + 1 else i - 1, n - 1) }

  /** The neighbours on the way from leaf `i` to the root. */
  function Branch(H: (Digest, Digest) -> Digest, s: seq<Digest>, i: nat): seq<Digest>
    requires i < |s|
    decreases |s|
  {
    if |s| <= 1 then [] else [s[Sibling(i, |s|)]] + Branch(H, NextLevel(H, s), Half(i))
  }

  /** Hashing up along a branch. */
  function Climb(H: (Digest, Digest) -> Digest, hash: Digest, branch: seq<Digest>, i: nat): Digest
    decreases |branch|
  {
    if branch == [] then hash
    else Climb(H, if i % 2 == 1 then H(branch[0], hash) else H(hash, branch[0]), branch[1..], Half(i))
  }

  /** The inner loop: `tree` ends with the level `s`, found at `j`. */
  method PushLevel(H: (Digest, Digest) -> Digest, tree0: seq<Digest>, j: nat, nSize: nat, ghost s: seq<Digest>)
    returns (tree: seq<Digest>)
    requires nSize == |s| > 1 && j + nSize == |tree0| && tree0[j..] == s
    ensures tree == tree0 + NextLevel(H, s)
  {
    tree := tree0;
    var i := 0;
    while i < nSize
      invariant 0 <= i <= nSize + 1 && i % 2 == 0
      invariant tree == tree0 + NextLevel(H, s)[..Half(i)]
    {
      var i2 := Min(i + 1, nSize - 1);
      assert tree[j + i] == tree0[j..][i] && tree[j + i2] == tree0[j..][i2];
      assert NextLevel(H, s)[Half(i)] == H(s[2 * (Half(i))], s[Min(2 * (Half(i)) + 1, nSize - 1)]);
      tree := tree + [H(tree[j + i], tree[j + i2])];
      i := i + 2;
    }
    assert Half(i) == |NextLevel(H, s)|;
  }

  /** `tree` has all levels up to `level`, which begins at `j`. */
  ghost predicate BuiltTo(H: (Digest, Digest) -> Digest, leaves: seq<Digest>, tree: seq<Digest>, j: nat,
    level: seq<Digest>) {
    && j + |level| == |tree| && tree[j..] == level
    && tree[..j] + Flat(H, level) == Flat(H, leaves) && Root(H, level) == Root(H, leaves)
  }

  lemma BuiltNext(H: (Digest, Digest) -> Digest, leaves: seq<Digest>, tree: seq<Digest>, j: nat, level: seq<Digest>)
    requires BuiltTo(H, leaves, tree, j, level) && |level| > 1
    ensures BuiltTo(H, leaves, tree + NextLevel(H, level), j + |level|, NextLevel(H, level))
  {
    var next := NextLevel(H, level);
    var tree' := tree + next;
    assert tree == tree[..j] + level;
    assert tree'[..|tree|] == tree && tree'[|tree|..] == next;
    assert tree[..j] + (level + Flat(H, next)) == (tree[..j] + level) + Flat(H, next);
  }

  lemma BuiltDone(H: (Digest, Digest) -> Digest, leaves: seq<Digest>, tree: seq<Digest>, j: nat, level: seq<Digest>)
    requires BuiltTo(H, leaves, tree, j, level) && |level| <= 1 && (leaves != [] ==> level != [])
    ensures tree == Flat(H, leaves) && Root(H, leaves) == if tree == [] then 0 else tree[|tree| - 1]
  {
    assert tree == tree[..j] + level;
    if leaves != [] { assert tree[|tree| - 1] == level[0]; }
  }

  method BuildMerkleTree(H: (Digest, Digest) -> Digest, leaves: seq<Digest>) returns (root: Digest, tree: seq<Digest>)
    ensures tree == Flat(H, leaves) && root == Root(H, leaves)
  {
    tree := leaves;
    var j, nSize := 0, |leaves|;
    ghost var level := leaves;
    assert leaves[..0] + Flat(H, leaves) == Flat(H, leaves) && leaves[0..] == leaves;
    while nSize > 1
      invariant nSize == |level| && j >= 0 && BuiltTo(H, leaves, tree, j, level) && (leaves != [] ==> level != [])
      invariant leaves == [] ==> j == 0
      decreases nSize
    {
      BuiltNext(H, leaves, tree, j, level);
      tree := PushLevel(H, tree, j, nSize, level);
      j, nSize := j + nSize, Half(nSize + 1);
      level := NextLevel(H, level);
    }
    BuiltDone(H, leaves, tree, j, level);
    root := if tree == [] then 0 else tree[|tree| - 1];
  }

  method GetMerkleBranch(H: (Digest, Digest) -> Digest, leaves: seq<Digest>, tree: seq<Digest>, nIndex: nat)
    returns (branch: seq<Digest>)
    requires tree == Flat(H, leaves) && nIndex < |leaves|
    ensures branch == Branch(H, leaves, nIndex)
  {
    branch := [];
    var i: nat := nIndex;
    var j, nSize := 0, |leaves|;
    ghost var level := leaves;
    while nSize > 1
      invariant nSize == |level| && 0 <= j <= |tree| && i < nSize
      invariant tree[j..] == Flat(H, level)
      invariant branch + Branch(H, level, i) == Branch(H, leaves, nIndex)
      decreases nSize
    {
      assert tree[j + Sibling(i, nSize)] == tree[j..][Sibling(i, nSize)];
      branch := branch + [tree[j + Sibling(i, nSize)]];
      assert tree[j + nSize..] == tree[j..][nSize..];
      i, j, nSize := Half(i), j + nSize, Half(nSize + 1);
      level := NextLevel(H, level);
    }
  }

  method CheckMerkleBranch(H: (Digest, Digest) -> Digest, hash: Digest, branch: seq<Digest>, nIndex: int)
    returns (r: Digest)
    requires nIndex >= -1
    ensures r == if nIndex == -1 then 0 else Climb(H, hash, branch, nIndex)
  {
    if nIndex == -1 {
      return 0;
    }
    r := hash;
    var i := nIndex;
    for n := 0 to |branch|
      invariant i >= 0 && Climb(H, r, branch[n..], i) == Climb(H, hash, branch, nIndex)
    {
      assert branch[n..][1..] == branch[n + 1..];
      r := if i % 2 == 1 then H(branch[n], r) else H(r, branch[n]);
      i := Half(i);
    }
  }

  /** The branch of leaf `i` leads from that leaf to the root. */
  lemma {:induction false} BranchLeadsToRoot(H: (Digest, Digest) -> Digest, s: seq<Digest>, i: nat)
    requires i < |s|
    ensures Climb(H, s[i], Branch(H, s, i), i) == Root(H, s)
    decreases |s|
  {
    if |s| > 1 {
      assert NextLevel(H, s)[Half(i)] == H(s[2 * (Half(i))], s[Min(2 * (Half(i)) + 1, |s| - 1)]);
      BranchLeadsToRoot(H, NextLevel(H, s), Half(i));
    }
  }

  ghost predicate CollisionFree(H: (Digest, Digest) -> Digest) {
    forall a, b, c, d {:trigger H(a, b), H(c, d)} :: H(a, b) == H(c, d) ==> a == c && b == d
  }

  lemma {:induction false} ClimbInjective(H: (Digest, Digest) -> Digest, x: Digest, y: Digest, branch: seq<Digest>,
    i: nat)
    requires CollisionFree(H)
    ensures Climb(H, x, branch, i) == Climb(H, y, branch, i) <==> x == y
    decreases |branch|
  {
    if branch != [] {
      ClimbInjective(H, if i % 2 == 1 then H(branch[0], x) else H(x, branch[0]),
        if i % 2 == 1 then H(branch[0], y) else H(y, branch[0]), branch[1..], Half(i));
    }
  }

  /** Without hash collisions, a branch proves exactly its own leaf. */
  lemma BranchProvesLeaf(H: (Digest, Digest) -> Digest, s: seq<Digest>, i: nat, hash: Digest)
    requires CollisionFree(H) && i < |s|
    ensures Climb(H, hash, Branch(H, s, i), i) == Root(H, s) <==> hash == s[i]
  {
    BranchLeadsToRoot(H, s, i);
    ClimbInjective(H, hash, s[i], Branch(H, s, i), i);
  }

  lemma SameBelow(H: (Digest, Digest) -> Digest, a: seq<Digest>, b: seq<Digest>)
    requires CollisionFree(H) && |a| == |b| && NextLevel(H, a) == NextLevel(H, b)
    ensures a == b
  {
    forall i | 0 <= i < |a| ensures a[i] == b[i] {
      var k := Half(i);
      assert NextLevel(H, a)[k] == Above(H, a, k) && NextLevel(H, b)[k] == Above(H, b, k);
      assert i == 2 * k || i == Min(2 * k + 1, |a| - 1);
    }
  }

  /** Without collisions the root decides all leaves of a list of known length. */
  lemma {:induction false} RootDecides(H: (Digest, Digest) -> Digest, a: seq<Digest>, b: seq<Digest>)
    requires CollisionFree(H) && |a| == |b|
    ensures Root(H, a) == Root(H, b) <==> a == b
    decreases |a|
  {
    if |a| > 1 {
      RootDecides(H, NextLevel(H, a), NextLevel(H, b));
      if NextLevel(H, a) == NextLevel(H, b) { SameBelow(H, a, b); }
    }
  }

  /** But it does not decide the length: a list of odd length has the root of that list with its last
      leaf repeated. */
  lemma OddIsDoubled(H: (Digest, Digest) -> Digest, s: seq<Digest>)
    requires |s| > 1 && |s| % 2 == 1
    ensures Root(H, s + [s[|s| - 1]]) == Root(H, s)
  {
    var w := s + [s[|s| - 1]];
    forall k | 0 <= k < Half(|s| + 1) ensures Above(H, w, k) == Above(H, s, k) {}
    assert NextLevel(H, w) == NextLevel(H, s);
  }
}
