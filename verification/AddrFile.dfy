/** Saving and loading the address manager (src/addrman.h, the serialization of CAddrMan).
    Ids are renumbered and vvTried, mapAddr and vRandom are rebuilt; what the tables mean is
    preserved except for nLastTry, which is not written. */
module AddrFile {
  import opened Basics
  import opened AddrMan

  /** CAddrInfo as written. */
  datatype Saved = Saved(addr: Address, source: nat, nLastSuccess: int, nAttempts: int)

  /** The stream: new entries, tried entries, then per new bucket the indices of its entries. */
  datatype File = File(
    nKey: seq<nat>, nNew: int, nTried: int, nUBuckets: int,
    news: seq<Saved>, trieds: seq<Saved>, buckets: seq<seq<int>>)

  function SavedOf(info: Info): Saved { Saved(info.addr, info.source, info.nLastSuccess, info.nAttempts) }

  function Revived(s: Saved): Info { Info(s.addr, s.source, s.nLastSuccess, 0, s.nAttempts, 0, false, -1) }

  /** What a reload keeps of the meaning of the tables. */
  function Remembered(m: map<nat, Entry>): map<nat, Entry> {
    map ip | ip in m :: m[ip].(info := m[ip].info.(nLastTry := 0))
  }

  // ---------------------------------------------------------------- what a file means

  /** The buckets entry `i` is listed in. */
  function In(f: File, i: int): set<nat> { set b: nat | b < |f.buckets| && i in f.buckets[b] }

  function Size(f: File): nat { |f.news| + |f.trieds| }

  function SavedAt(f: File, i: nat): Saved
    requires i < Size(f)
  {
    if i < |f.news| then f.news[i] else f.trieds[i - |f.news|]
  }

  /** What the i-th saved entry says. */
  function EntryAt(f: File, i: nat): Entry
    requires i < Size(f)
  {
    if i < |f.news| then Entry(Revived(f.news[i]), false, In(f, i))
      else Entry(Revived(f.trieds[i - |f.news|]), true, {})
  }

  ghost predicate Says(f: File, m: map<nat, Entry>, i: int) {
    0 <= i < Size(f) && SavedAt(f, i).addr.ip in m && m[SavedAt(f, i).addr.ip] == EntryAt(f, i)
  }

  /** The file has exactly the entries of `m`, `where` giving the place of each. */
  ghost predicate Describes(f: File, m: map<nat, Entry>, where: map<nat, int>) {
    && where.Keys == m.Keys
    && (forall ip {:trigger where[ip]} ::
        ip in where ==> 0 <= where[ip] < Size(f) && SavedAt(f, where[ip]).addr.ip == ip)
    && (forall i {:trigger Says(f, m, i)} :: 0 <= i < Size(f) ==> Says(f, m, i) && where[SavedAt(f, i).addr.ip] == i)
  }

  /** The tried entries among the first n that belong into tried bucket `b`. */
  function Here(k: Secret, f: File, n: nat, b: nat): set<int>
    requires n <= Size(f)
  {
    set i | |f.news| <= i < n && k.TriedBucket(SavedAt(f, i).addr) == b
  }

  ghost predicate BucketOk(f: File, b: int)
    requires 0 <= b < |f.buckets|
  {
    && |f.buckets[b]| <= NEW_BUCKET_SIZE && Distinct(f.buckets[b])
    && forall n :: 0 <= n < |f.buckets[b]| ==> 0 <= f.buckets[b][n] < |f.news|
  }

  /** A file as Save writes it. */
  ghost predicate FileOk(k: Secret, f: File) {
    && f.nNew == |f.news| && f.nTried == |f.trieds| && f.nUBuckets == |f.buckets| == NEW_BUCKET_COUNT
    && (forall b {:trigger BucketOk(f, b)} :: 0 <= b < |f.buckets| ==> BucketOk(f, b))
    && (forall i {:trigger In(f, i)} :: 0 <= i < |f.news| ==> 1 <= |In(f, i)| <= NEW_BUCKETS_PER_ADDRESS)
    && (forall b: nat {:trigger Here(k, f, Size(f), b)} ::
         b < TRIED_BUCKET_COUNT ==> |Here(k, f, Size(f), b)| <= TRIED_BUCKET_SIZE)
  }

  // ---------------------------------------------------------------- loading

  /** The i-th entry as loaded, with reference count r. */
  function LoadedInfo(f: File, i: nat, r: int): Info
    requires i < Size(f)
  {
    Revived(SavedAt(f, i)).(nRandomPos := i, fInTried := i >= |f.news|, nRefCount := if i < |f.news| then r else 0)
  }

  /** Entry `i` is in place, its reference count aside. */
  ghost predicate InfoLoaded(f: File, t: Tables, i: int, r: int) {
    && 0 <= i < Size(f) && i in t.mapInfo && t.mapInfo[i] == LoadedInfo(f, i, r)
    && SavedAt(f, i).addr.ip in t.mapAddr && t.mapAddr[SavedAt(f, i).addr.ip] == i
  }

  ghost predicate Ids(t: Tables, n: nat) {
    && (forall i :: i in t.mapInfo <==> 0 <= i < n) && |t.vRandom| == n && t.nIdCount == n
    && forall i :: 0 <= i < n ==> t.vRandom[i] == i
  }

  /** Tried bucket `b` holds the tried entries loaded so far that belong into it. */
  ghost predicate TriedLoaded(k: Secret, f: File, v: seq<int>, b: nat, n: nat) {
    && n <= Size(f) && Distinct(v) && |v| == |Here(k, f, n, b)|
    && forall x :: x in v <==> x in Here(k, f, n, b)
  }

  /** The tables after `n` entries. */
  ghost predicate Entered(k: Secret, f: File, t: Tables, n: nat) {
    && n <= Size(f) && Ids(t, n)
    && (forall i {:trigger InfoLoaded(f, t, i, 0)} :: 0 <= i < n ==> InfoLoaded(f, t, i, 0))
    && (forall ip {:trigger t.mapAddr[ip]} ::
        ip in t.mapAddr ==> 0 <= t.mapAddr[ip] < n && SavedAt(f, t.mapAddr[ip]).addr.ip == ip)
    && |t.vvTried| == TRIED_BUCKET_COUNT
    && (forall b: nat {:trigger TriedLoaded(k, f, t.vvTried[b], b, n)} ::
        b < TRIED_BUCKET_COUNT ==> TriedLoaded(k, f, t.vvTried[b], b, n))
    && t.nNew == f.nNew && t.nTried == f.nTried
    && t.vvNew == seq(NEW_BUCKET_COUNT, i => {})
  }

  function EnterNewEntry(t: Tables, info: Info): Tables {
    t.(nIdCount := t.nIdCount + 1, mapInfo := t.mapInfo[t.nIdCount := info.(nRandomPos := |t.vRandom|)],
       mapAddr := t.mapAddr[info.addr.ip := t.nIdCount], vRandom := t.vRandom + [t.nIdCount])
  }

  function EnterTried(t: Tables, info: Info, b: nat): Tables
    requires b < |t.vvTried|
  {
    EnterNewEntry(t, info.(fInTried := true)).(vvTried := t.vvTried[b := t.vvTried[b] + [t.nIdCount]])
  }

  lemma EnterKeeps(k: Secret, f: File, t: Tables, n: nat, m: map<nat, Entry>, where: map<nat, int>)
    requires Entered(k, f, t, n) && n < |f.news| && Describes(f, m, where)
    ensures Entered(k, f, EnterNewEntry(t, Revived(f.news[n])), n + 1)
  {
    var t' := EnterNewEntry(t, Revived(f.news[n]));
    forall i | 0 <= i < n + 1 ensures InfoLoaded(f, t', i, 0) {
      assert Says(f, m, i) && Says(f, m, n);
      assert i < n ==> InfoLoaded(f, t, i, 0);
    }
    var n' := n + 1;
    forall b: nat | b < TRIED_BUCKET_COUNT ensures TriedLoaded(k, f, t'.vvTried[b], b, n') {
      assert TriedLoaded(k, f, t.vvTried[b], b, n) && Here(k, f, n', b) == Here(k, f, n, b);
    }
  }

  lemma HereNext(k: Secret, f: File, n: nat, b: nat)
    requires |f.news| <= n < Size(f)
    ensures Here(k, f, n + 1, b) == Here(k, f, n, b) + if k.TriedBucket(SavedAt(f, n).addr) == b then {n} else {}
    ensures n !in Here(k, f, n, b)
    ensures Here(k, f, n + 1, b) <= Here(k, f, Size(f), b)
  {}

  lemma TriedLoadedNext(k: Secret, f: File, v: seq<int>, n: nat, b: nat)
    requires |f.news| <= n < Size(f) && TriedLoaded(k, f, v, b, n)
    ensures b == k.TriedBucket(SavedAt(f, n).addr) ==>
      |v| < |Here(k, f, Size(f), b)| && TriedLoaded(k, f, v + [n], b, n + 1)
    ensures b != k.TriedBucket(SavedAt(f, n).addr) ==> TriedLoaded(k, f, v, b, n + 1)
  {
    HereNext(k, f, n, b);
    SubsetSize(Here(k, f, n + 1, b), Here(k, f, Size(f), b));
    if b == k.TriedBucket(SavedAt(f, n).addr) {
      AppendOne(v, Here(k, f, n, b), n);
    }
  }

  /** A list of a set, grown by one. */
  lemma AppendOne(v: seq<int>, s: set<int>, n: int)
    requires Distinct(v) && |v| == |s| && n !in s && forall x :: x in v <==> x in s
    ensures Distinct(v + [n]) && |v + [n]| == |s + {n}| && forall x :: x in v + [n] <==> x in s + {n}
  {
    assert forall i :: 0 <= i < |v| ==> v[i] in v;
  }

  lemma EnterTriedKeeps(k: Secret, f: File, t: Tables, n: nat, m: map<nat, Entry>, where: map<nat, int>)
    requires Entered(k, f, t, n) && |f.news| <= n < Size(f) && Describes(f, m, where) && FileOk(k, f)
    ensures var b := k.TriedBucket(SavedAt(f, n).addr);
      |t.vvTried[b]| < TRIED_BUCKET_SIZE && Entered(k, f, EnterTried(t, Revived(SavedAt(f, n)), b), n + 1)
  {
    var b0, n' := k.TriedBucket(SavedAt(f, n).addr), n + 1;
    var t' := EnterTried(t, Revived(SavedAt(f, n)), b0);
    assert TriedLoaded(k, f, t.vvTried[b0], b0, n);
    TriedLoadedNext(k, f, t.vvTried[b0], n, b0);
    forall i | 0 <= i < n' ensures InfoLoaded(f, t', i, 0) {
      assert Says(f, m, i) && Says(f, m, n);
      assert i < n ==> InfoLoaded(f, t, i, 0);
    }
    forall b: nat | b < TRIED_BUCKET_COUNT ensures TriedLoaded(k, f, t'.vvTried[b], b, n') {
      assert TriedLoaded(k, f, t.vvTried[b], b, n);
      TriedLoadedNext(k, f, t.vvTried[b], n, b);
    }
  }

  /** The buckets entry `x` has been put into after the first `b` buckets and `n` entries of the next. */
  function Listed(f: File, b: nat, n: nat, x: int): set<nat>
    requires b < |f.buckets| ==> n <= |f.buckets[b]|
  {
    set c: nat | c < |f.buckets| && if c == b then x in f.buckets[c][..n] else c < b && x in f.buckets[c]
  }

  lemma ListedNext(f: File, b: nat, n: nat, x: int)
    requires b < |f.buckets| && n < |f.buckets[b]|
    ensures Listed(f, b, n + 1, x) == Listed(f, b, n, x) + if x == f.buckets[b][n] then {b} else {}
    ensures Listed(f, b, n, x) <= In(f, x)
    ensures Distinct(f.buckets[b]) ==> b !in Listed(f, b, n, f.buckets[b][n])
  {
    assert f.buckets[b][..n + 1] == f.buckets[b][..n] + [f.buckets[b][n]];
  }

  lemma ListedDone(f: File, b: nat, x: int)
    requires b < |f.buckets|
    ensures Listed(f, b + 1, 0, x) == Listed(f, b, |f.buckets[b]|, x)
  {
    assert f.buckets[b][..|f.buckets[b]|] == f.buckets[b];
  }

  /** The tables while the bucket lists are read. */
  ghost predicate Placing(f: File, t: Tables, b: nat, n: nat)
    requires b < |f.buckets| ==> n <= |f.buckets[b]|
  {
    && |t.vvNew| == |f.buckets| == NEW_BUCKET_COUNT
    && (forall x {:trigger Placed(f, t, b, n, x)} :: Placed(f, t, b, n, x))
  }

  ghost predicate Placed(f: File, t: Tables, b: nat, n: nat, x: int)
    requires b < |f.buckets| ==> n <= |f.buckets[b]|
  {
    && Buckets(t, x) == Listed(f, b, n, x)
    && (0 <= x < Size(f) ==> InfoLoaded(f, t, x, |Listed(f, b, n, x)|))
  }

  /** Everything that the bucket lists do not touch. */
  ghost predicate SameIndex(t: Tables, t': Tables) {
    t' == t.(mapInfo := t'.mapInfo, vvNew := t'.vvNew) && t'.mapInfo.Keys == t.mapInfo.Keys
  }

  /** One entry of a bucket list. */
  function Place(t: Tables, b: nat, x: int): Tables
    requires b < |t.vvNew| && x in t.mapInfo
  {
    t.(mapInfo := t.mapInfo[x := t.mapInfo[x].(nRefCount := t.mapInfo[x].nRefCount + 1)],
       vvNew := t.vvNew[b := t.vvNew[b] + {x}])
  }

  lemma PlaceBuckets(t: Tables, b: nat, x: int, y: int)
    requires b < |t.vvNew| && x in t.mapInfo
    ensures Buckets(Place(t, b, x), y) == Buckets(t, y) + if x == y then {b} else {}
  {}

  lemma PlaceKeeps(k: Secret, f: File, t: Tables, b: nat, n: nat)
    requires FileOk(k, f) && b < |f.buckets| && n < |f.buckets[b]| && Placing(f, t, b, n)
    ensures var x := f.buckets[b][n];
      && x in t.mapInfo && t.mapInfo[x].nRefCount < NEW_BUCKETS_PER_ADDRESS
      && Placing(f, Place(t, b, x), b, n + 1) && SameIndex(t, Place(t, b, x))
  {
    var x, n' := f.buckets[b][n], n + 1;
    assert BucketOk(f, b) && Placed(f, t, b, n, x);
    ListedNext(f, b, n, x);
    assert b in In(f, x);
    SubsetSize(Listed(f, b, n, x) + {b}, In(f, x));
    forall y ensures Placed(f, Place(t, b, x), b, n', y) {
      assert Placed(f, t, b, n, y);
      PlaceOne(f, t, b, n, y);
    }
  }

  lemma PlaceOne(f: File, t: Tables, b: nat, n: nat, y: int)
    requires b < |f.buckets| == |t.vvNew| && n < |f.buckets[b]| && Distinct(f.buckets[b])
    requires var x := f.buckets[b][n];
      0 <= x < |f.news| && x in t.mapInfo && Placed(f, t, b, n, x) && Placed(f, t, b, n, y)
    ensures Placed(f, Place(t, b, f.buckets[b][n]), b, n + 1, y)
  {
    ListedNext(f, b, n, y);
    PlaceBuckets(t, b, f.buckets[b][n], y);
  }

  lemma PlacingDone(f: File, t: Tables, b: nat)
    requires b < |f.buckets| && Placing(f, t, b, |f.buckets[b]|)
    ensures Placing(f, t, b + 1, 0)
  {
    var b' := b + 1;
    forall x ensures Placed(f, t, b', 0, x) {
      assert Placed(f, t, b, |f.buckets[b]|, x);
      ListedDone(f, b, x);
    }
  }

  lemma PlacingStart(k: Secret, f: File, t: Tables)
    requires FileOk(k, f) && Entered(k, f, t, Size(f))
    ensures Placing(f, t, 0, 0)
  {
    forall x ensures Placed(f, t, 0, 0, x) {
      assert Listed(f, 0, 0, x) == {} == Buckets(t, x);
      assert 0 <= x < Size(f) ==> InfoLoaded(f, t, x, 0);
    }
  }

  // ---------------------------------------------------------------- what was loaded

  /** The tables as loaded from `f`. */
  ghost predicate Loaded(k: Secret, f: File, t: Tables) {
    && Ids(t, Size(f)) && |t.vvTried| == TRIED_BUCKET_COUNT && t.nNew == f.nNew && t.nTried == f.nTried
    && (forall ip {:trigger t.mapAddr[ip]} ::
        ip in t.mapAddr ==> 0 <= t.mapAddr[ip] < Size(f) && SavedAt(f, t.mapAddr[ip]).addr.ip == ip)
    && (forall b: nat {:trigger TriedLoaded(k, f, t.vvTried[b], b, Size(f))} ::
        b < TRIED_BUCKET_COUNT ==> TriedLoaded(k, f, t.vvTried[b], b, Size(f)))
    && |t.vvNew| == |f.buckets| && Placing(f, t, |f.buckets|, 0)
  }

  lemma PlacedIs(k: Secret, f: File, t: Tables, x: int)
    requires Loaded(k, f, t) && FileOk(k, f)
    ensures Buckets(t, x) == In(f, x)
    ensures 0 <= x < Size(f) ==> InfoLoaded(f, t, x, |In(f, x)|)
    ensures !(0 <= x < |f.news|) ==> In(f, x) == {}
  {
    assert Placed(f, t, |f.buckets|, 0, x) && Listed(f, |f.buckets|, 0, x) == In(f, x);
    forall b: nat | b < |f.buckets| ensures x in f.buckets[b] ==> 0 <= x < |f.news| { assert BucketOk(f, b); }
  }

  lemma LoadedTables(k: Secret, f: File, t: Tables)
    requires Loaded(k, f, t) && FileOk(k, f)
    ensures RandomsOk(t) && AddrsOk(t) && NewsOk(t)
  {
    forall i | 0 <= i < |t.vRandom| ensures RandomOk(t, i) { PlacedIs(k, f, t, i); }
    forall ip | ip in t.mapAddr ensures AddrOk(t, ip) { PlacedIs(k, f, t, t.mapAddr[ip]); }
    forall b | 0 <= b < |t.vvNew| ensures NewOk(t, b) {
      assert BucketOk(f, b);
      forall x ensures x in t.vvNew[b] <==> x in f.buckets[b] {
        PlacedIs(k, f, t, x);
        assert x in t.vvNew[b] <==> b in Buckets(t, x);
        assert x in f.buckets[b] <==> b in In(f, x);
      }
      DistinctCount(f.buckets[b], t.vvNew[b]);
      forall x | x in t.vvNew[b] ensures x in t.mapInfo { assert x in f.buckets[b]; }
    }
  }

  lemma LoadedTried(k: Secret, f: File, t: Tables)
    requires Loaded(k, f, t) && FileOk(k, f)
    ensures TriedsOk(k, t)
  {
    forall b | 0 <= b < |t.vvTried| ensures TriedOk(k, t, b) {
      assert TriedLoaded(k, f, t.vvTried[b], b, Size(f));
      assert |Here(k, f, Size(f), b)| <= TRIED_BUCKET_SIZE;
      forall x | x in t.vvTried[b] ensures TriedHere(k, t, b, x) {
        assert x in Here(k, f, Size(f), b);
        PlacedIs(k, f, t, x);
      }
    }
  }

  lemma RangeCard(s: set<int>, a: int, b: int)
    requires a <= b && forall x :: x in s <==> a <= x < b
    ensures |s| == b - a
    decreases b - a
  {
    if a == b {
      assert (forall x :: x !in s) ==> s == {};
    } else {
      RangeCard(s - {a}, a + 1, b);
    }
  }

  lemma LoadedCounts(k: Secret, f: File, t: Tables)
    requires Loaded(k, f, t) && FileOk(k, f)
    ensures CountsOk(t)
  {
    forall x ensures (x in TriedIds(t) <==> |f.news| <= x < Size(f)) && (x in NewIds(t) <==> 0 <= x < |f.news|) {
      PlacedIs(k, f, t, x);
    }
    RangeCard(TriedIds(t), |f.news|, Size(f));
    RangeCard(NewIds(t), 0, |f.news|);
  }

  lemma LoadedInv(k: Secret, f: File, t: Tables)
    requires Loaded(k, f, t) && FileOk(k, f)
    ensures Inv(k, t, NONE)
  {
    LoadedTables(k, f, t);
    LoadedTried(k, f, t);
    LoadedCounts(k, f, t);
    forall x | x in t.mapInfo ensures InfoOk(k, t, NONE, x) {
      PlacedIs(k, f, t, x);
      var b := k.TriedBucket(SavedAt(f, x).addr);
      assert TriedLoaded(k, f, t.vvTried[b], b, Size(f));
      if x < |f.news| {
        assert 1 <= |In(f, x)| <= NEW_BUCKETS_PER_ADDRESS;
      } else {
        assert x in Here(k, f, Size(f), b);
      }
    }
  }

  lemma LoadedMeans(k: Secret, f: File, t: Tables, m: map<nat, Entry>, where: map<nat, int>)
    requires Loaded(k, f, t) && FileOk(k, f) && Describes(f, m, where)
    ensures Abs(t) == m
  {
    LoadedTables(k, f, t);
    forall ip ensures ip in t.mapAddr <==> ip in m {
      if ip in m { PlacedIs(k, f, t, where[ip]); }
      if ip in t.mapAddr { assert Says(f, m, t.mapAddr[ip]); }
    }
    forall ip | ip in t.mapAddr ensures AbsAt(t, ip) == m[ip] {
      PlacedIs(k, f, t, t.mapAddr[ip]);
      assert Says(f, m, t.mapAddr[ip]);
    }
    assert m.Keys == t.mapAddr.Keys;
    AbsIs(t, m);
  }

  /** The loading half of the serialization. `h` brings the hash functions, the key is read
      from the file. */
  method Load(h: Secret, f: File, ghost m: map<nat, Entry>, ghost where: map<nat, int>)
    returns (k: Secret, t: Tables, nLost: int)
    requires FileOk(h.(nKey := f.nKey), f) && Describes(f, m, where)
    ensures k == h.(nKey := f.nKey) && nLost == 0
    ensures Inv(k, t, NONE) && Abs(t) == m
  {
    k := h.(nKey := f.nKey);
    t, nLost := ReadEntries(k, f, m, where);
    ghost var entered := t;
    PlacingStart(k, f, t);
    var b := 0;
    while b < f.nUBuckets
      invariant 0 <= b <= |f.buckets| && Placing(f, t, b, 0) && SameIndex(entered, t)
    {
      var n := 0;
      while n < |f.buckets[b]|
        invariant 0 <= n <= |f.buckets[b]| && Placing(f, t, b, n) && SameIndex(entered, t)
      {
        var nIndex := f.buckets[b][n];
        PlaceKeeps(k, f, t, b, n);
        if t.mapInfo[nIndex].nRefCount < NEW_BUCKETS_PER_ADDRESS { t := Place(t, b, nIndex); }
        n := n + 1;
      }
      PlacingDone(f, t, b);
      b := b + 1;
    }
    LoadedInv(k, f, t);
    LoadedMeans(k, f, t, m, where);
  }

  lemma EnteredStart(k: Secret, f: File, t: Tables)
    requires t == Empty().(nNew := f.nNew, nTried := f.nTried)
    ensures Entered(k, f, t, 0)
  {
    forall b: nat | b < TRIED_BUCKET_COUNT
      ensures TriedLoaded(k, f, t.vvTried[b], b, 0)
    {
      assert Here(k, f, 0, b) == {};
    }
  }

  method ReadEntries(k: Secret, f: File, ghost m: map<nat, Entry>, ghost where: map<nat, int>)
    returns (t: Tables, nLost: int)
    requires FileOk(k, f) && Describes(f, m, where)
    ensures Entered(k, f, t, Size(f)) && nLost == 0
  {
    t := Empty().(nNew := f.nNew, nTried := f.nTried);
    EnteredStart(k, f, t);
    for n := 0 to f.nNew
      invariant Entered(k, f, t, n)
    {
      EnterKeeps(k, f, t, n, m, where);
      t := EnterNewEntry(t, Revived(f.news[n]));
    }
    t, nLost := ReadTried(k, f, t, m, where);
    t := t.(nTried := t.nTried - nLost);
  }

  method ReadTried(k: Secret, f: File, t0: Tables, ghost m: map<nat, Entry>, ghost where: map<nat, int>)
    returns (t: Tables, nLost: int)
    requires FileOk(k, f) && Describes(f, m, where) && Entered(k, f, t0, |f.news|)
    ensures Entered(k, f, t, Size(f)) && nLost == 0
  {
    t, nLost := t0, 0;
    for j := 0 to f.nTried
      invariant Entered(k, f, t, |f.news| + j) && nLost == 0
    {
      var info := Revived(f.trieds[j]);
      var b := k.TriedBucket(info.addr);
      EnterTriedKeeps(k, f, t, |f.news| + j, m, where);
      var room := |t.vvTried[b]| < TRIED_BUCKET_SIZE;
      if room { t := EnterTried(t, info, b); }
      nLost := nLost + if room then 0 else 1;
    }
  }

  // ---------------------------------------------------------------- saving

  /** Whether an entry belongs into the first (new) or the second (tried) list. */
  predicate Wanted(t: Tables, tried: bool, id: int) {
    id in t.mapInfo && if tried then t.mapInfo[id].fInTried else t.mapInfo[id].nRefCount != 0
  }

  /** `ids` are all the new (or all the tried) entries. */
  ghost predicate AllWanted(t: Tables, tried: bool, ids: seq<int>) {
    Distinct(ids) && forall x :: x in ids <==> Wanted(t, tried, x)
  }

  /** Index `x` has its number. */
  ghost predicate Numbered(ids: seq<int>, unk: map<int, int>, x: int) {
    x in unk && 0 <= unk[x] < |ids| && ids[unk[x]] == x
  }

  lemma WantedCount(k: Secret, t: Tables, tried: bool, ids: seq<int>)
    requires Inv(k, t, NONE) && Distinct(ids) && forall x :: x in ids ==> Wanted(t, tried, x)
    ensures |ids| == (if tried then t.nTried else t.nNew) ==> AllWanted(t, tried, ids)
  {
    var all := if tried then TriedIds(t) else NewIds(t);
    forall x ensures x in all <==> Wanted(t, tried, x) { assert x in t.mapInfo ==> InfoOk(k, t, NONE, x); }
    var some := set x | x in ids;
    DistinctCount(ids, some);
    SubsetSize(some, all);
  }

  /** One of the two loops over mapInfo, with its early exit. */
  method WriteEntries(k: Secret, t: Tables, ids: seq<int>, tried: bool)
    returns (out: seq<Saved>, unk: map<int, int>, ghost written: seq<int>)
    requires Inv(k, t, NONE) && Distinct(ids) && forall x :: x in ids <==> x in t.mapInfo
    ensures AllWanted(t, tried, written)
    ensures |out| == |written| == if tried then t.nTried else t.nNew
    ensures forall i :: 0 <= i < |out| ==> written[i] in t.mapInfo && out[i] == SavedOf(t.mapInfo[written[i]])
    ensures forall x {:trigger Numbered(written, unk, x)} :: Wanted(t, tried, x) ==> Numbered(written, unk, x)
  {
    var limit := if tried then t.nTried else t.nNew;
    out, unk, written := [], map[], [];
    var n, nIds := 0, 0;
    while n < |ids| && nIds != limit
      invariant 0 <= n <= |ids| && nIds == |out| == |written|
      invariant Distinct(written) && forall x :: x in written <==> x in ids[..n] && Wanted(t, tried, x)
      invariant forall i :: 0 <= i < |out| ==> written[i] in t.mapInfo && out[i] == SavedOf(t.mapInfo[written[i]])
      invariant forall x {:trigger Numbered(written, unk, x)} :: x in written ==> Numbered(written, unk, x)
    {
      var id := ids[n];
      assert ids[..n + 1] == ids[..n] + [id] && id in t.mapInfo;
      ghost var was, wasUnk := written, unk;
      unk := unk[id := nIds];
      if Wanted(t, tried, id) {
        out := out + [SavedOf(t.mapInfo[id])];
        written := written + [id];
        nIds := nIds + 1;
      }
      forall x | x in written ensures Numbered(written, unk, x) { assert x in was ==> Numbered(was, wasUnk, x); }
      n := n + 1;
    }
    WantedCount(k, t, tried, written);
    assert n == |ids| ==> ids[..n] == ids;
    AllCount(k, t, tried, written);
  }

  lemma AllCount(k: Secret, t: Tables, tried: bool, ids: seq<int>)
    requires Inv(k, t, NONE) && AllWanted(t, tried, ids)
    ensures |ids| == if tried then t.nTried else t.nNew
  {
    var all := if tried then TriedIds(t) else NewIds(t);
    forall x ensures x in all <==> x in ids { assert x in t.mapInfo ==> InfoOk(k, t, NONE, x); }
    DistinctCount(ids, all);
  }

  /** Bucket list `v` has the numbers of the entries of `s`. */
  ghost predicate BucketWritten(newIds: seq<int>, s: set<int>, v: seq<int>) {
    && Distinct(v) && |v| == |s|
    && (forall n :: 0 <= n < |v| ==> 0 <= v[n] < |newIds|)
    && (forall i :: 0 <= i < |newIds| ==> (i in v <==> newIds[i] in s))
  }

  method WriteBucket(s: set<int>, unk: map<int, int>, ghost newIds: seq<int>) returns (v: seq<int>)
    requires Distinct(newIds) && forall x {:trigger Numbered(newIds, unk, x)} :: x in s ==> Numbered(newIds, unk, x)
    ensures BucketWritten(newIds, s, v)
  {
    var ids := Sorted(s);
    SortedIs(s);
    v := [];
    for n := 0 to |ids|
      invariant |v| == n && Distinct(v)
      invariant forall j :: 0 <= j < n ==> 0 <= v[j] < |newIds| && newIds[v[j]] == ids[j]
    {
      assert Numbered(newIds, unk, ids[n]);
      v := v + [unk[ids[n]]];
    }
    forall i | 0 <= i < |newIds| ensures i in v <==> newIds[i] in s {
      if newIds[i] in s {
        var j :| 0 <= j < |ids| && ids[j] == newIds[i];
        assert v[j] == i;
      }
      if i in v {
        var j :| 0 <= j < |v| && v[j] == i;
        assert ids[j] in s;
      }
    }
  }

  /** `f` holds the entries `news` and `trieds` of `t`. */
  ghost predicate Written(t: Tables, f: File, news: seq<int>, trieds: seq<int>) {
    && AllWanted(t, false, news) && AllWanted(t, true, trieds)
    && |f.news| == |news| == f.nNew && |f.trieds| == |trieds| == f.nTried
    && (forall i :: 0 <= i < |news| ==> news[i] in t.mapInfo && f.news[i] == SavedOf(t.mapInfo[news[i]]))
    && (forall i :: 0 <= i < |trieds| ==> trieds[i] in t.mapInfo && f.trieds[i] == SavedOf(t.mapInfo[trieds[i]]))
    && f.nUBuckets == |f.buckets| == |t.vvNew| == NEW_BUCKET_COUNT
    && (forall b {:trigger f.buckets[b]} :: 0 <= b < |f.buckets| ==> BucketWritten(news, t.vvNew[b], f.buckets[b]))
  }

  /** The id saved in place `i`. */
  ghost function IdAt(news: seq<int>, trieds: seq<int>, i: nat): int
    requires i < |news| + |trieds|
  {
    (news + trieds)[i]
  }

  lemma WrittenAt(k: Secret, t: Tables, f: File, news: seq<int>, trieds: seq<int>, i: nat)
    requires Inv(k, t, NONE) && Written(t, f, news, trieds) && i < Size(f)
    ensures var id := IdAt(news, trieds, i);
      && id in t.mapInfo && InfoOk(k, t, NONE, id) && SavedAt(f, i) == SavedOf(t.mapInfo[id])
      && t.mapInfo[id].fInTried == (i >= |f.news|)
      && (i < |f.news| ==> In(f, i) == Buckets(t, id))
  {
    var id := IdAt(news, trieds, i);
    if i < |news| { assert id in news && Wanted(t, false, id); } else { assert id in trieds && Wanted(t, true, id); }
    assert InfoOk(k, t, NONE, id);
    if i < |news| {
      forall b: nat | b < |f.buckets| ensures b in In(f, i) <==> b in Buckets(t, id) {
        assert BucketWritten(news, t.vvNew[b], f.buckets[b]);
      }
    }
  }

  lemma WrittenDistinct(k: Secret, t: Tables, f: File, news: seq<int>, trieds: seq<int>)
    requires Inv(k, t, NONE) && Written(t, f, news, trieds)
    ensures Distinct(news + trieds)
  {
    forall i, j | 0 <= i < j < |news + trieds| ensures (news + trieds)[i] != (news + trieds)[j] {
      WrittenAt(k, t, f, news, trieds, i);
      WrittenAt(k, t, f, news, trieds, j);
    }
  }

  lemma ImageCard(all: seq<int>, s: set<int>, bound: set<int>)
    requires Distinct(all) && forall i :: i in s ==> 0 <= i < |all| && all[i] in bound
    ensures |s| <= |bound|
  {
    if s != {} {
      assert (forall y :: y !in s) ==> s == {};
      var i :| i in s;
      forall j | j in s - {i} ensures all[j] in bound - {all[i]} { assert all[j] != all[i]; }
      ImageCard(all, s - {i}, bound - {all[i]});
    }
  }

  lemma WrittenOk(k: Secret, t: Tables, f: File, news: seq<int>, trieds: seq<int>)
    requires Inv(k, t, NONE) && Written(t, f, news, trieds)
    ensures FileOk(k, f)
  {
    forall b | 0 <= b < |f.buckets| ensures BucketOk(f, b) {
      assert NewOk(t, b) && BucketWritten(news, t.vvNew[b], f.buckets[b]);
    }
    forall i | 0 <= i < |f.news| ensures 1 <= |In(f, i)| <= NEW_BUCKETS_PER_ADDRESS {
      WrittenAt(k, t, f, news, trieds, i);
    }
    WrittenDistinct(k, t, f, news, trieds);
    forall b: nat | b < TRIED_BUCKET_COUNT ensures |Here(k, f, Size(f), b)| <= TRIED_BUCKET_SIZE {
      WrittenHere(k, t, f, news, trieds, b);
    }
  }

  lemma WrittenHere(k: Secret, t: Tables, f: File, news: seq<int>, trieds: seq<int>, b: nat)
    requires Inv(k, t, NONE) && Written(t, f, news, trieds) && b < TRIED_BUCKET_COUNT && Distinct(news + trieds)
    ensures |Here(k, f, Size(f), b)| <= TRIED_BUCKET_SIZE
  {
    assert TriedOk(k, t, b);
    var bound := set x | x in t.vvTried[b];
    forall i | i in Here(k, f, Size(f), b) ensures (news + trieds)[i] in bound { WrittenAt(k, t, f, news, trieds, i); }
    DistinctCount(t.vvTried[b], bound);
    ImageCard(news + trieds, Here(k, f, Size(f), b), bound);
  }

  /** Where the entry of each address was written. */
  ghost predicate WhereOk(t: Tables, news: seq<int>, trieds: seq<int>, where: map<nat, int>) {
    && where.Keys == t.mapAddr.Keys
    && forall ip {:trigger where[ip]} :: ip in where ==>
         0 <= where[ip] < |news| + |trieds| && IdAt(news, trieds, where[ip]) == t.mapAddr[ip]
  }

  lemma WrittenMeans(k: Secret, t: Tables, f: File, news: seq<int>, trieds: seq<int>, where: map<nat, int>)
    requires Inv(k, t, NONE) && Written(t, f, news, trieds) && WhereOk(t, news, trieds, where)
    ensures Describes(f, Remembered(Abs(t)), where)
  {
    var m := Remembered(Abs(t));
    AbsKeys(t);
    WrittenDistinct(k, t, f, news, trieds);
    forall ip | ip in where ensures 0 <= where[ip] < Size(f) && SavedAt(f, where[ip]).addr.ip == ip {
      assert AddrOk(t, ip);
      WrittenAt(k, t, f, news, trieds, where[ip]);
    }
    forall i | 0 <= i < Size(f) ensures Says(f, m, i) && where[SavedAt(f, i).addr.ip] == i {
      WrittenAt(k, t, f, news, trieds, i);
    }
  }

  method WriteBuckets(k: Secret, t: Tables, unk: map<int, int>, ghost newIds: seq<int>) returns (buckets: seq<seq<int>>)
    requires Inv(k, t, NONE) && Distinct(newIds)
    requires forall x {:trigger Numbered(newIds, unk, x)} :: Wanted(t, false, x) ==> Numbered(newIds, unk, x)
    ensures |buckets| == |t.vvNew| == NEW_BUCKET_COUNT
    ensures forall b {:trigger buckets[b]} :: 0 <= b < |buckets| ==> BucketWritten(newIds, t.vvNew[b], buckets[b])
  {
    buckets := [];
    for b := 0 to |t.vvNew|
      invariant |buckets| == b
      invariant forall c {:trigger buckets[c]} :: 0 <= c < b ==> BucketWritten(newIds, t.vvNew[c], buckets[c])
    {
      forall x | x in t.vvNew[b] ensures Numbered(newIds, unk, x) { NewIsWanted(k, t, b, x); }
      var v := WriteBucket(t.vvNew[b], unk, newIds);
      buckets := buckets + [v];
    }
  }

  /** The writing half of the serialization. */
  method Save(k: Secret, t: Tables) returns (f: File, ghost where: map<nat, int>)
    requires Inv(k, t, NONE)
    ensures f.nKey == k.nKey && FileOk(k, f) && Describes(f, Remembered(Abs(t)), where)
  {
    var ids := Sorted(t.mapInfo.Keys);
    SortedIs(t.mapInfo.Keys);
    ghost var newIds, triedIds;
    var news, unk, trieds, unk2;
    news, unk, newIds := WriteEntries(k, t, ids, false);
    trieds, unk2, triedIds := WriteEntries(k, t, ids, true);
    var buckets := WriteBuckets(k, t, unk, newIds);
    f := File(k.nKey, t.nNew, t.nTried, NEW_BUCKET_COUNT, news, trieds, buckets);
    where := Places(k, t, newIds, triedIds, unk, unk2);
    WrittenOk(k, t, f, newIds, triedIds);
    WrittenMeans(k, t, f, newIds, triedIds, where);
  }

  lemma NewIsWanted(k: Secret, t: Tables, b: nat, x: int)
    requires Inv(k, t, NONE) && b < |t.vvNew| && x in t.vvNew[b]
    ensures Wanted(t, false, x)
  {
    assert NewOk(t, b) && InfoOk(k, t, NONE, x) && b in Buckets(t, x);
  }

  ghost method Places(k: Secret, t: Tables, news: seq<int>, trieds: seq<int>, unk: map<int, int>, unk2: map<int, int>)
    returns (where: map<nat, int>)
    requires Inv(k, t, NONE)
    requires forall x {:trigger Numbered(news, unk, x)} :: Wanted(t, false, x) ==> Numbered(news, unk, x)
    requires forall x {:trigger Numbered(trieds, unk2, x)} :: Wanted(t, true, x) ==> Numbered(trieds, unk2, x)
    ensures WhereOk(t, news, trieds, where)
  {
    forall ip | ip in t.mapAddr ensures t.mapAddr[ip] in t.mapInfo &&
      if t.mapInfo[t.mapAddr[ip]].fInTried then Numbered(trieds, unk2, t.mapAddr[ip])
        else Numbered(news, unk, t.mapAddr[ip])
    {
      assert AddrOk(t, ip) && InfoOk(k, t, NONE, t.mapAddr[ip]);
      assert Wanted(t, t.mapInfo[t.mapAddr[ip]].fInTried, t.mapAddr[ip]);
    }
    where := map ip | ip in t.mapAddr ::
      if t.mapInfo[t.mapAddr[ip]].fInTried then |news| + unk2[t.mapAddr[ip]] else unk[t.mapAddr[ip]];
  }

  /** Saving and loading gives the same addresses with the same data, the same new buckets and
      the same tried buckets, loses nothing, and forgets only nLastTry. */
  method SaveAndLoad(k: Secret, t: Tables, h: Secret) returns (k': Secret, t': Tables, nLost: int)
    requires Inv(k, t, NONE) && h.hash == k.hash && h.group == k.group
    ensures k' == k && nLost == 0
    ensures Inv(k, t', NONE) && Abs(t') == Remembered(Abs(t))
  {
    var f;
    ghost var where;
    f, where := Save(k, t);
    assert h.(nKey := f.nKey) == k;
    k', t', nLost := Load(h, f, Remembered(Abs(t)), where);
  }
}
