/** The stochastic address manager (src/addrman.h and src/addrman.cpp: CAddrInfo, CAddrMan). */
module AddrMan {
  import opened Basics

  const TRIED_BUCKET_COUNT := 64
  const TRIED_BUCKET_SIZE := 64
  const NEW_BUCKET_COUNT := 256
  const NEW_BUCKET_SIZE := 64
  const TRIED_BUCKETS_PER_GROUP := 4
  const NEW_BUCKETS_PER_SOURCE_GROUP := 32
  const NEW_BUCKETS_PER_ADDRESS := 4
  const TRIED_ENTRIES_INSPECT_ON_EVICT := 4
  const HORIZON_DAYS := 30
  const RETRIES := 3
  const MAX_FAILURES := 10
  const MIN_FAIL_DAYS := 7
  const GETADDR_MAX_PCT := 23
  const GETADDR_MAX := 2500

  /** CAddress: a service with its advertised time. */
  datatype Address = Address(ip: nat, port: nat, services: set<nat>, nTime: int)

  /** Equality of CService. */
  predicate SameService(a: Address, b: Address) { a.ip == b.ip && a.port == b.port }

  /** CAddrInfo. The last three fields are memory only. */
  datatype Info = Info(
    addr: Address, source: nat, nLastSuccess: int, nLastTry: int, nAttempts: int,
    nRefCount: int, fInTried: bool, nRandomPos: int)
  {
    predicate IsTerrible(nNow: int) {
      if nLastTry != 0 && nLastTry >= nNow - 60 then false
      else
        || addr.nTime > nNow + 10 * 60
        || addr.nTime == 0 || nNow - addr.nTime > HORIZON_DAYS * 86400
        || (nLastSuccess == 0 && nAttempts >= RETRIES)
        || (nNow - nLastSuccess > MIN_FAIL_DAYS * 86400 && nAttempts >= MAX_FAILURES)
    }

    /** What is known about the address, without the bookkeeping. */
    function Plain(): Info { this.(nRefCount := 0, fInTried := false, nRandomPos := -1) }
  }

  function NewInfo(addr: Address, source: nat): Info { Info(addr, source, 0, 0, 0, 0, false, -1) }

  /** The secret key, and the hash and grouping functions the buckets are chosen with. */
  datatype Secret = Secret(nKey: seq<nat>, hash: seq<nat> -> nat, group: nat -> seq<nat>) {
    function TriedBucket(a: Address): (b: nat)
      ensures b < TRIED_BUCKET_COUNT
    {
      var hash1 := hash(nKey + [a.ip, a.port]);
      hash(nKey + group(a.ip) + [hash1 % TRIED_BUCKETS_PER_GROUP]) % TRIED_BUCKET_COUNT
    }

    function NewBucket(ip: nat, src: nat): (b: nat)
      ensures b < NEW_BUCKET_COUNT
    {
      var hash1 := hash(nKey + group(ip) + group(src));
      hash(nKey + group(src) + [hash1 % NEW_BUCKETS_PER_SOURCE_GROUP]) % NEW_BUCKET_COUNT
    }
  }

  datatype Tables = Tables(
    nIdCount: int, mapInfo: map<int, Info>, mapAddr: map<nat, int>, vRandom: seq<int>,
    nTried: int, vvTried: seq<seq<int>>, nNew: int, vvNew: seq<set<int>>)

  function Empty(): Tables {
    Tables(0, map[], map[], [], 0, seq(TRIED_BUCKET_COUNT, i => []), 0, seq(NEW_BUCKET_COUNT, i => {}))
  }

  // ---------------------------------------------------------------- the invariant

  /** The new buckets that hold `id`. */
  function Buckets(t: Tables, id: int): set<nat> { set b: nat | b < |t.vvNew| && id in t.vvNew[b] }

  function TriedIds(t: Tables): set<int> { set id | id in t.mapInfo && t.mapInfo[id].fInTried }
  function NewIds(t: Tables): set<int> { set id | id in t.mapInfo && !t.mapInfo[id].fInTried }

  /** Entry `id` is at its place in every container. `pending` is an entry whose reference
      count already includes the bucket it is about to be put into. */
  ghost predicate InfoOk(k: Secret, t: Tables, pending: int, id: int)
    requires id in t.mapInfo
  {
    var info := t.mapInfo[id];
    && 0 <= id < t.nIdCount
    && info.addr.ip in t.mapAddr && t.mapAddr[info.addr.ip] == id
    && 0 <= info.nRandomPos < |t.vRandom| && t.vRandom[info.nRandomPos] == id
    && (info.fInTried ==>
      && info.nRefCount == 0 && Buckets(t, id) == {}
      && k.TriedBucket(info.addr) < |t.vvTried| && id in t.vvTried[k.TriedBucket(info.addr)])
    && (!info.fInTried ==>
      && info.nRefCount == |Buckets(t, id)| + (if id == pending then 1 else 0)
      && 1 <= info.nRefCount <= NEW_BUCKETS_PER_ADDRESS)
  }

  ghost predicate RandomOk(t: Tables, i: int)
    requires 0 <= i < |t.vRandom|
  {
    t.vRandom[i] in t.mapInfo && t.mapInfo[t.vRandom[i]].nRandomPos == i
  }

  ghost predicate AddrOk(t: Tables, ip: nat)
    requires ip in t.mapAddr
  {
    t.mapAddr[ip] in t.mapInfo && t.mapInfo[t.mapAddr[ip]].addr.ip == ip
  }

  ghost predicate NewOk(t: Tables, b: int)
    requires 0 <= b < |t.vvNew|
  {
    |t.vvNew[b]| <= NEW_BUCKET_SIZE && forall id :: id in t.vvNew[b] ==> id in t.mapInfo
  }

  ghost predicate TriedOk(k: Secret, t: Tables, b: int)
    requires 0 <= b < |t.vvTried|
  {
    && |t.vvTried[b]| <= TRIED_BUCKET_SIZE && Distinct(t.vvTried[b])
    && forall id :: id in t.vvTried[b] ==> TriedHere(k, t, b, id)
  }

  ghost predicate TriedHere(k: Secret, t: Tables, b: int, id: int) {
    id in t.mapInfo && t.mapInfo[id].fInTried && k.TriedBucket(t.mapInfo[id].addr) == b
  }

  ghost predicate InfosOk(k: Secret, t: Tables, pending: int) {
    forall id {:trigger InfoOk(k, t, pending, id)} :: id in t.mapInfo ==> InfoOk(k, t, pending, id)
  }

  ghost predicate RandomsOk(t: Tables) {
    forall i {:trigger RandomOk(t, i)} :: 0 <= i < |t.vRandom| ==> RandomOk(t, i)
  }

  ghost predicate AddrsOk(t: Tables) {
    forall ip {:trigger AddrOk(t, ip)} :: ip in t.mapAddr ==> AddrOk(t, ip)
  }

  ghost predicate NewsOk(t: Tables) {
    |t.vvNew| == NEW_BUCKET_COUNT && forall b {:trigger NewOk(t, b)} :: 0 <= b < |t.vvNew| ==> NewOk(t, b)
  }

  ghost predicate TriedsOk(k: Secret, t: Tables) {
    && |t.vvTried| == TRIED_BUCKET_COUNT
    && forall b {:trigger TriedOk(k, t, b)} :: 0 <= b < |t.vvTried| ==> TriedOk(k, t, b)
  }

  ghost predicate CountsOk(t: Tables) {
    t.nIdCount >= 0 && t.nTried == |TriedIds(t)| && t.nNew == |NewIds(t)|
  }

  ghost predicate Inv(k: Secret, t: Tables, pending: int) {
    InfosOk(k, t, pending) && RandomsOk(t) && AddrsOk(t) && NewsOk(t) && TriedsOk(k, t) && CountsOk(t)
  }

  const NONE := -1

  // ---------------------------------------------------------------- what the tables mean

  /** What the manager knows of one address: the data, whether it is in the tried table
      (always in its own hashed bucket), and the new buckets it is in. */
  datatype Entry = Entry(info: Info, tried: bool, buckets: set<nat>)

  function EntryOf(t: Tables, id: int): Entry
    requires id in t.mapInfo
  {
    Entry(t.mapInfo[id].Plain(), t.mapInfo[id].fInTried, Buckets(t, id))
  }

  /** The tables without ids, positions and counters. */
  function Abs(t: Tables): map<nat, Entry> {
    map ip | ip in t.mapAddr && t.mapAddr[ip] in t.mapInfo :: EntryOf(t, t.mapAddr[ip])
  }

  lemma EmptyOk(k: Secret)
    ensures Inv(k, Empty(), NONE) && Abs(Empty()) == map[]
  {}

  // ---------------------------------------------------------------- what a change leaves alone

  /** Entry `id` still exists, under the same address and in the same table. */
  ghost predicate Kept(t: Tables, t': Tables, id: int) {
    id in t.mapInfo ==>
      && id in t'.mapInfo
      && t'.mapInfo[id].fInTried == t.mapInfo[id].fInTried
      && SameService(t'.mapInfo[id].addr, t.mapInfo[id].addr)
  }

  ghost predicate AllKept(t: Tables, t': Tables) { forall id {:trigger Kept(t, t', id)} :: Kept(t, t', id) }

  lemma TriedsFrom(k: Secret, t: Tables, t': Tables)
    requires TriedsOk(k, t) && AllKept(t, t') && t'.vvTried == t.vvTried
    ensures TriedsOk(k, t')
  {
    forall b | 0 <= b < |t'.vvTried| ensures TriedOk(k, t', b) {
      assert TriedOk(k, t, b);
      forall id | id in t'.vvTried[b] ensures TriedHere(k, t', b, id) {
        assert TriedHere(k, t, b, id) && Kept(t, t', id);
      }
    }
  }

  lemma NewsFrom(t: Tables, t': Tables)
    requires NewsOk(t) && AllKept(t, t') && t'.vvNew == t.vvNew
    ensures NewsOk(t') && forall id :: Buckets(t', id) == Buckets(t, id)
  {
    forall b | 0 <= b < |t'.vvNew| ensures NewOk(t', b) {
      assert NewOk(t, b);
      forall id | id in t'.vvNew[b] ensures id in t'.mapInfo { assert Kept(t, t', id); }
    }
  }

  lemma AddrsFrom(t: Tables, t': Tables)
    requires AddrsOk(t) && AllKept(t, t') && t'.mapAddr == t.mapAddr
    ensures AddrsOk(t')
  {
    forall ip | ip in t'.mapAddr ensures AddrOk(t', ip) { assert AddrOk(t, ip) && Kept(t, t', t.mapAddr[ip]); }
  }

  /** Nothing changes in vRandom and the positions. */
  ghost predicate SamePos(t: Tables, t': Tables) {
    && t'.vRandom == t.vRandom && t'.mapInfo.Keys == t.mapInfo.Keys
    && forall id {:trigger PosKept(t, t', id)} :: id in t.mapInfo ==> PosKept(t, t', id)
  }

  ghost predicate PosKept(t: Tables, t': Tables, id: int)
    requires id in t.mapInfo && id in t'.mapInfo
  {
    t'.mapInfo[id].nRandomPos == t.mapInfo[id].nRandomPos
  }

  lemma RandomsFrom(t: Tables, t': Tables)
    requires RandomsOk(t) && SamePos(t, t')
    ensures RandomsOk(t')
  {
    forall i | 0 <= i < |t'.vRandom| ensures RandomOk(t', i) {
      assert RandomOk(t, i) && PosKept(t, t', t.vRandom[i]);
    }
  }

  lemma CountsFrom(t: Tables, t': Tables)
    requires CountsOk(t) && AllKept(t, t') && t'.mapInfo.Keys == t.mapInfo.Keys
    requires t'.nIdCount == t.nIdCount && t'.nNew == t.nNew && t'.nTried == t.nTried
    ensures CountsOk(t')
  {
    forall id ensures (id in TriedIds(t') <==> id in TriedIds(t)) && (id in NewIds(t') <==> id in NewIds(t)) {
      assert Kept(t, t', id);
    }
    assert TriedIds(t') == TriedIds(t) && NewIds(t') == NewIds(t);
  }

  /** Equal meaning, address by address. */
  lemma AbsIs(t: Tables, m: map<nat, Entry>)
    requires AddrsOk(t) && m.Keys == t.mapAddr.Keys
    requires forall ip {:trigger AbsAt(t, ip)} :: ip in t.mapAddr ==> AbsAt(t, ip) == m[ip]
    ensures Abs(t) == m
  {
    forall ip | ip in t.mapAddr ensures ip in Abs(t) && Abs(t)[ip] == m[ip] {
      assert AddrOk(t, ip) && AbsAt(t, ip) == m[ip];
    }
  }

  ghost function AbsAt(t: Tables, ip: nat): Entry
    requires AddrsOk(t) && ip in t.mapAddr
  {
    assert AddrOk(t, ip);
    EntryOf(t, t.mapAddr[ip])
  }

  lemma AbsKeys(t: Tables)
    requires AddrsOk(t)
    ensures Abs(t).Keys == t.mapAddr.Keys
    ensures forall ip :: ip in t.mapAddr ==> t.mapAddr[ip] in t.mapInfo && Abs(t)[ip] == EntryOf(t, t.mapAddr[ip])
  {
    forall ip | ip in t.mapAddr
      ensures ip in Abs(t) && t.mapAddr[ip] in t.mapInfo && Abs(t)[ip] == EntryOf(t, t.mapAddr[ip])
    {
      assert AddrOk(t, ip);
    }
  }

  // ---------------------------------------------------------------- SwapRandom

  /** SwapRandom for two different positions. */
  function Swapped(t: Tables, p1: nat, p2: nat): Tables
    requires p1 < |t.vRandom| && p2 < |t.vRandom| && t.vRandom[p1] in t.mapInfo && t.vRandom[p2] in t.mapInfo
  {
    var id1, id2 := t.vRandom[p1], t.vRandom[p2];
    var m1 := t.mapInfo[id1 := t.mapInfo[id1].(nRandomPos := p2)];
    t.(mapInfo := m1[id2 := m1[id2].(nRandomPos := p1)], vRandom := t.vRandom[p1 := id2][p2 := id1])
  }

  function SwapRandom(t: Tables, p1: nat, p2: nat): Tables
    requires p1 < |t.vRandom| && p2 < |t.vRandom| && t.vRandom[p1] in t.mapInfo && t.vRandom[p2] in t.mapInfo
  {
    if p1 == p2 then t else Swapped(t, p1, p2)
  }

  /** Same entries, different random positions. */
  ghost predicate SameData(t: Tables, t': Tables, id: int)
    requires id in t.mapInfo && id in t'.mapInfo
  {
    t'.mapInfo[id] == t.mapInfo[id].(nRandomPos := t'.mapInfo[id].nRandomPos)
  }

  ghost predicate SameButPlaces(t: Tables, t': Tables) {
    && t' == t.(mapInfo := t'.mapInfo, vRandom := t'.vRandom)
    && t'.mapInfo.Keys == t.mapInfo.Keys
    && (forall id {:trigger SameData(t, t', id)} :: id in t.mapInfo ==> SameData(t, t', id))
  }

  ghost predicate PlaceOk(t: Tables, id: int)
    requires id in t.mapInfo
  {
    0 <= t.mapInfo[id].nRandomPos < |t.vRandom| && t.vRandom[t.mapInfo[id].nRandomPos] == id
  }

  lemma SamePlacesKeep(k: Secret, t: Tables, t': Tables, pending: int)
    requires Inv(k, t, pending) && SameButPlaces(t, t') && RandomsOk(t')
    requires forall id :: id in t'.mapInfo ==> PlaceOk(t', id)
    ensures Inv(k, t', pending) && Abs(t') == Abs(t)
  {
    forall id ensures Kept(t, t', id) { assert id in t.mapInfo ==> SameData(t, t', id); }
    TriedsFrom(k, t, t');
    NewsFrom(t, t');
    AddrsFrom(t, t');
    CountsFrom(t, t');
    forall id | id in t'.mapInfo ensures InfoOk(k, t', pending, id) {
      assert InfoOk(k, t, pending, id) && PlaceOk(t', id) && SameData(t, t', id);
    }
    AbsKeys(t);
    forall ip | ip in t.mapAddr ensures AbsAt(t', ip) == Abs(t)[ip] {
      assert AddrOk(t, ip) && SameData(t, t', t.mapAddr[ip]);
    }
    AbsIs(t', Abs(t));
  }

  lemma SwapKeeps(k: Secret, t: Tables, pending: int, p1: nat, p2: nat)
    requires Inv(k, t, pending) && p1 < |t.vRandom| && p2 < |t.vRandom|
    ensures RandomOk(t, p1) && RandomOk(t, p2)
    ensures var t' := SwapRandom(t, p1, p2);
      && Inv(k, t', pending) && SameButPlaces(t, t') && Abs(t') == Abs(t)
      && t'.vRandom == t.vRandom[p1 := t.vRandom[p2]][p2 := t.vRandom[p1]]
  {
    assert RandomOk(t, p1) && RandomOk(t, p2);
    var t' := SwapRandom(t, p1, p2);
    forall id | id in t'.mapInfo ensures PlaceOk(t', id) { assert InfoOk(k, t, pending, id); }
    forall i | 0 <= i < |t'.vRandom| ensures RandomOk(t', i) { assert RandomOk(t, i); }
    SamePlacesKeep(k, t, t', pending);
  }

  // ---------------------------------------------------------------- changing one entry

  /** Give entry `id` other data for the same address. */
  function SetInfo(t: Tables, id: int, info: Info): Tables
    requires id in t.mapInfo
  {
    t.(mapInfo := t.mapInfo[id := info])
  }

  /** `info` may replace the data of `id`: only what no container depends on differs, and
      the reference count is one higher if the entry is to be put into another bucket. */
  ghost predicate MaySet(t: Tables, id: int, info: Info, pending: int)
    requires id in t.mapInfo
  {
    var was := t.mapInfo[id];
    && SameService(info.addr, was.addr) && info.fInTried == was.fInTried && info.nRandomPos == was.nRandomPos
    && (pending == id ==> !was.fInTried && info.nRefCount == was.nRefCount + 1 <= NEW_BUCKETS_PER_ADDRESS)
    && (pending != id ==> pending == NONE && info.nRefCount == was.nRefCount)
  }

  lemma SetInfoKeeps(k: Secret, t: Tables, id: int, info: Info, pending: int)
    requires Inv(k, t, NONE) && id in t.mapInfo && id != NONE && MaySet(t, id, info, pending)
    ensures Inv(k, SetInfo(t, id, info), pending)
    ensures Abs(SetInfo(t, id, info)) == Abs(t)[info.addr.ip := EntryOf(t, id).(info := info.Plain())]
  {
    var t' := SetInfo(t, id, info);
    assert InfoOk(k, t, NONE, id);
    forall x ensures Kept(t, t', x) {}
    TriedsFrom(k, t, t');
    NewsFrom(t, t');
    AddrsFrom(t, t');
    CountsFrom(t, t');
    RandomsFrom(t, t');
    forall x | x in t'.mapInfo ensures InfoOk(k, t', pending, x) { assert InfoOk(k, t, NONE, x); }
    var m := Abs(t)[info.addr.ip := EntryOf(t, id).(info := info.Plain())];
    AbsKeys(t);
    forall ip | ip in t'.mapAddr ensures AbsAt(t', ip) == m[ip] { assert AddrOk(t, ip); }
    AbsIs(t', m);
  }

  /** Create, for an address that is not known, with the first reference already counted. */
  function Created(t: Tables, info: Info): Tables {
    t.(nIdCount := t.nIdCount + 1, nNew := t.nNew + 1,
       mapInfo := t.mapInfo[t.nIdCount := info.(nRefCount := 1, fInTried := false, nRandomPos := |t.vRandom|)],
       mapAddr := t.mapAddr[info.addr.ip := t.nIdCount],
       vRandom := t.vRandom + [t.nIdCount])
  }

  lemma NextIdIsUnused(k: Secret, t: Tables, pending: int)
    requires Inv(k, t, pending)
    ensures t.nIdCount !in t.mapInfo && Buckets(t, t.nIdCount) == {}
  {
    assert t.nIdCount in t.mapInfo ==> InfoOk(k, t, pending, t.nIdCount);
    forall b: nat | b < |t.vvNew| ensures t.nIdCount !in t.vvNew[b] { assert NewOk(t, b); }
  }

  lemma CreatedKeeps(k: Secret, t: Tables, info: Info)
    requires Inv(k, t, NONE) && info.addr.ip !in t.mapAddr
    ensures Inv(k, Created(t, info), t.nIdCount)
  {
    var t', n := Created(t, info), t.nIdCount;
    CreatedTables(k, t, info);
    assert TriedIds(t') == TriedIds(t);
    assert NewIds(t') == NewIds(t) + {n};
    forall x | x in t'.mapInfo ensures InfoOk(k, t', n, x) { if x != n { assert InfoOk(k, t, NONE, x); } }
  }

  lemma CreatedTables(k: Secret, t: Tables, info: Info)
    requires Inv(k, t, NONE) && info.addr.ip !in t.mapAddr
    ensures var t' := Created(t, info);
      && RandomsOk(t') && AddrsOk(t') && NewsOk(t') && TriedsOk(k, t')
      && t.nIdCount !in t.mapInfo && Buckets(t, t.nIdCount) == {} && forall x :: Buckets(t', x) == Buckets(t, x)
  {
    var t' := Created(t, info);
    NextIdIsUnused(k, t, NONE);
    forall x ensures Kept(t, t', x) {}
    TriedsFrom(k, t, t');
    NewsFrom(t, t');
    forall i | 0 <= i < |t'.vRandom| ensures RandomOk(t', i) { if i < |t.vRandom| { assert RandomOk(t, i); } }
    forall ip | ip in t'.mapAddr ensures AddrOk(t', ip) { if ip in t.mapAddr { assert AddrOk(t, ip); } }
  }

  lemma CreatedMeans(k: Secret, t: Tables, info: Info)
    requires Inv(k, t, NONE) && info.addr.ip !in t.mapAddr
    ensures Abs(Created(t, info)) == Abs(t)[info.addr.ip := Entry(info.Plain(), false, {})]
  {
    var t' := Created(t, info);
    CreatedTables(k, t, info);
    var m := Abs(t)[info.addr.ip := Entry(info.Plain(), false, {})];
    AbsKeys(t);
    forall ip | ip in t'.mapAddr ensures AbsAt(t', ip) == m[ip] {
      assert AddrOk(t', ip) && (ip in t.mapAddr ==> AddrOk(t, ip));
    }
    AbsIs(t', m);
  }

  // ---------------------------------------------------------------- new buckets

  function PutNew(t: Tables, b: nat, id: int): Tables
    requires b < |t.vvNew|
  {
    t.(vvNew := t.vvNew[b := t.vvNew[b] + {id}])
  }

  lemma PutNewBuckets(t: Tables, b: nat, id: int, x: int)
    requires b < |t.vvNew|
    ensures Buckets(PutNew(t, b, id), x) == Buckets(t, x) + (if x == id then {b} else {})
  {}

  /** Putting the pending entry into its bucket completes it. */
  lemma PutNewKeeps(k: Secret, t: Tables, b: nat, id: int)
    requires id != NONE && id in t.mapInfo && Inv(k, t, id) && !t.mapInfo[id].fInTried
    requires b < |t.vvNew| && id !in t.vvNew[b] && |t.vvNew[b]| < NEW_BUCKET_SIZE
    ensures Inv(k, PutNew(t, b, id), NONE)
  {
    var t' := PutNew(t, b, id);
    forall x ensures Kept(t, t', x) {}
    TriedsFrom(k, t, t');
    AddrsFrom(t, t');
    CountsFrom(t, t');
    RandomsFrom(t, t');
    assert InfoOk(k, t, id, id);
    forall c | 0 <= c < |t'.vvNew| ensures NewOk(t', c) { assert NewOk(t, c); }
    forall x | x in t'.mapInfo ensures InfoOk(k, t', NONE, x) {
      assert InfoOk(k, t, id, x) && b !in Buckets(t, id);
      PutNewBuckets(t, b, id, x);
    }
  }

  lemma PutNewMeans(t: Tables, b: nat, id: int)
    requires AddrsOk(t) && b < |t.vvNew| && id in t.mapInfo
    requires t.mapInfo[id].addr.ip in t.mapAddr && t.mapAddr[t.mapInfo[id].addr.ip] == id
    ensures t.mapInfo[id].addr.ip in Abs(t)
    ensures Abs(PutNew(t, b, id)) == InBucket(Abs(t), t.mapInfo[id].addr.ip, b)
  {
    var t', ip0 := PutNew(t, b, id), t.mapInfo[id].addr.ip;
    AbsKeys(t);
    forall x ensures Kept(t, t', x) {}
    AddrsFrom(t, t');
    var m := InBucket(Abs(t), ip0, b);
    forall ip | ip in t'.mapAddr ensures AbsAt(t', ip) == m[ip] {
      assert AddrOk(t, ip);
      PutNewBuckets(t, b, id, t.mapAddr[ip]);
    }
    AbsIs(t', m);
  }

  /** The entry of `ip` is also in new bucket `b`. */
  function InBucket(m: map<nat, Entry>, ip: nat, b: nat): map<nat, Entry>
    requires ip in m
  {
    m[ip := m[ip].(buckets := m[ip].buckets + {b})]
  }

  /** The entry of `ip` leaves new bucket `b`, and is forgotten if that was the last one. */
  function OutOfBucket(m: map<nat, Entry>, ip: nat, b: nat): map<nat, Entry>
    requires ip in m
  {
    if m[ip].buckets - {b} == {} then m - {ip} else m[ip := m[ip].(buckets := m[ip].buckets - {b})]
  }

  function TakeNew(t: Tables, b: nat, id: int): Tables
    requires b < |t.vvNew|
  {
    t.(vvNew := t.vvNew[b := t.vvNew[b] - {id}])
  }

  /** What ShrinkNew does to the entry it has chosen. */
  function Drop(t: Tables, b: nat, id: int): Tables
    requires b < |t.vvNew| && id in t.mapInfo
    requires 0 <= t.mapInfo[id].nRandomPos < |t.vRandom|
    requires t.vRandom[t.mapInfo[id].nRandomPos] in t.mapInfo && t.vRandom[|t.vRandom| - 1] in t.mapInfo
  {
    var info := t.mapInfo[id];
    TakeNew(
      if info.nRefCount == 1 then Forget(SwapRandom(t, info.nRandomPos, |t.vRandom| - 1), id, info.addr.ip)
      else SetInfo(t, id, info.(nRefCount := info.nRefCount - 1)),
      b, id)
  }

  function Forget(t: Tables, id: int, ip: nat): Tables
    requires t.vRandom != []
  {
    t.(vRandom := t.vRandom[..|t.vRandom| - 1], mapAddr := t.mapAddr - {ip}, mapInfo := t.mapInfo - {id},
      nNew := t.nNew - 1)
  }

  /** Everything needed to take entry `id` out of bucket `b`. */
  ghost predicate MayDrop(k: Secret, t: Tables, pending: int, b: nat, id: int) {
    Inv(k, t, pending) && b < |t.vvNew| && id in t.vvNew[b] && id != pending
  }

  lemma DropIsSafe(k: Secret, t: Tables, pending: int, b: nat, id: int)
    requires MayDrop(k, t, pending, b, id)
    ensures id in t.mapInfo && InfoOk(k, t, pending, id) && !t.mapInfo[id].fInTried && b in Buckets(t, id)
    ensures t.vRandom[t.mapInfo[id].nRandomPos] in t.mapInfo && t.vRandom[|t.vRandom| - 1] in t.mapInfo
    ensures t.mapInfo[id].nRefCount == 1 <==> Buckets(t, id) == {b}
  {
    assert NewOk(t, b);
    assert InfoOk(k, t, pending, id) && b in Buckets(t, id);
    assert RandomOk(t, t.mapInfo[id].nRandomPos) && RandomOk(t, |t.vRandom| - 1);
    assert Buckets(t, id) == {b} + (Buckets(t, id) - {b});
  }

  lemma DropBuckets(t: Tables, t': Tables, b: nat, id: int, x: int)
    requires b < |t.vvNew| && t'.vvNew == t.vvNew[b := t.vvNew[b] - {id}]
    ensures Buckets(t', x) == Buckets(t, x) - (if x == id then {b} else {})
  {}

  /** An entry in several buckets leaves one of them. */
  lemma LeaveKeeps(k: Secret, t: Tables, pending: int, b: nat, id: int)
    requires MayDrop(k, t, pending, b, id) && id in t.mapInfo && t.mapInfo[id].nRefCount != 1
    ensures var t' := TakeNew(SetInfo(t, id, t.mapInfo[id].(nRefCount := t.mapInfo[id].nRefCount - 1)), b, id);
      Inv(k, t', pending)
  {
    var t' := TakeNew(SetInfo(t, id, t.mapInfo[id].(nRefCount := t.mapInfo[id].nRefCount - 1)), b, id);
    DropIsSafe(k, t, pending, b, id);
    forall x ensures Kept(t, t', x) {}
    TriedsFrom(k, t, t');
    AddrsFrom(t, t');
    CountsFrom(t, t');
    RandomsFrom(t, t');
    forall c | 0 <= c < |t'.vvNew| ensures NewOk(t', c) { assert NewOk(t, c); }
    forall x | x in t'.mapInfo ensures InfoOk(k, t', pending, x) {
      assert InfoOk(k, t, pending, x);
      DropBuckets(t, t', b, id, x);
    }
  }

  lemma LeaveMeans(k: Secret, t: Tables, pending: int, b: nat, id: int)
    requires MayDrop(k, t, pending, b, id) && id in t.mapInfo && t.mapInfo[id].nRefCount != 1
    ensures var t' := TakeNew(SetInfo(t, id, t.mapInfo[id].(nRefCount := t.mapInfo[id].nRefCount - 1)), b, id);
      t.mapInfo[id].addr.ip in Abs(t) && Abs(t') == OutOfBucket(Abs(t), t.mapInfo[id].addr.ip, b)
  {
    var t' := TakeNew(SetInfo(t, id, t.mapInfo[id].(nRefCount := t.mapInfo[id].nRefCount - 1)), b, id);
    DropIsSafe(k, t, pending, b, id);
    LeaveKeeps(k, t, pending, b, id);
    AbsKeys(t);
    var m := OutOfBucket(Abs(t), t.mapInfo[id].addr.ip, b);
    assert Buckets(t, id) - {b} == {} ==> Buckets(t, id) == {b};
    forall ip | ip in t'.mapAddr ensures AbsAt(t', ip) == m[ip] {
      assert AddrOk(t, ip);
      DropBuckets(t, t', b, id, t.mapAddr[ip]);
    }
    AbsIs(t', m);
  }

  /** An entry whose only bucket is `b`, at the end of vRandom, is deleted. */
  ghost predicate MayForget(k: Secret, t: Tables, pending: int, b: nat, id: int) {
    && MayDrop(k, t, pending, b, id) && id in t.mapInfo
    && t.mapInfo[id].nRefCount == 1 && t.vRandom != [] && t.vRandom[|t.vRandom| - 1] == id
  }

  function Forgotten(t: Tables, b: nat, id: int): Tables
    requires b < |t.vvNew| && id in t.mapInfo && t.vRandom != []
  {
    TakeNew(Forget(t, id, t.mapInfo[id].addr.ip), b, id)
  }

  lemma ForgetTables(k: Secret, t: Tables, pending: int, b: nat, id: int)
    requires MayForget(k, t, pending, b, id)
    ensures var t' := Forgotten(t, b, id); RandomsOk(t') && AddrsOk(t') && NewsOk(t') && TriedsOk(k, t')
  {
    var t' := Forgotten(t, b, id);
    DropIsSafe(k, t, pending, b, id);
    assert RandomOk(t, |t.vRandom| - 1);
    forall i | 0 <= i < |t'.vRandom| ensures RandomOk(t', i) { assert RandomOk(t, i); }
    forall ip | ip in t'.mapAddr ensures AddrOk(t', ip) { assert AddrOk(t, ip); }
    forall c | 0 <= c < |t'.vvNew| ensures NewOk(t', c) {
      assert NewOk(t, c);
      forall x | x in t'.vvNew[c] ensures x != id { assert x == id ==> c in Buckets(t, id); }
    }
    forall c | 0 <= c < |t'.vvTried| ensures TriedOk(k, t', c) {
      assert TriedOk(k, t, c);
      forall x | x in t'.vvTried[c] ensures TriedHere(k, t', c, x) { assert TriedHere(k, t, c, x); }
    }
  }

  lemma ForgetKeeps(k: Secret, t: Tables, pending: int, b: nat, id: int)
    requires MayForget(k, t, pending, b, id)
    ensures Inv(k, Forgotten(t, b, id), pending)
  {
    var t' := Forgotten(t, b, id);
    DropIsSafe(k, t, pending, b, id);
    ForgetTables(k, t, pending, b, id);
    assert RandomOk(t, |t.vRandom| - 1);
    assert TriedIds(t') == TriedIds(t);
    assert NewIds(t') == NewIds(t) - {id} && id in NewIds(t);
    forall x | x in t'.mapInfo ensures InfoOk(k, t', pending, x) {
      assert InfoOk(k, t, pending, x);
      DropBuckets(t, t', b, id, x);
    }
  }

  lemma ForgetMeans(k: Secret, t: Tables, pending: int, b: nat, id: int)
    requires MayForget(k, t, pending, b, id)
    ensures t.mapInfo[id].addr.ip in Abs(t)
    ensures Abs(Forgotten(t, b, id)) == OutOfBucket(Abs(t), t.mapInfo[id].addr.ip, b)
  {
    var t' := Forgotten(t, b, id);
    DropIsSafe(k, t, pending, b, id);
    ForgetTables(k, t, pending, b, id);
    AbsKeys(t);
    var m := OutOfBucket(Abs(t), t.mapInfo[id].addr.ip, b);
    assert Buckets(t, id) - {b} == {};
    forall ip | ip in t'.mapAddr ensures AbsAt(t', ip) == m[ip] {
      assert AddrOk(t, ip);
      DropBuckets(t, t', b, id, t.mapAddr[ip]);
    }
    AbsIs(t', m);
  }

  /** Taking an entry out of a new bucket, deleting it if that was its last one. */
  lemma DropKeeps(k: Secret, t: Tables, pending: int, b: nat, id: int)
    requires MayDrop(k, t, pending, b, id)
    ensures id in t.mapInfo && InfoOk(k, t, pending, id) && t.vRandom[|t.vRandom| - 1] in t.mapInfo
    ensures t.mapInfo[id].addr.ip in Abs(t)
    ensures Dropped(k, t, Drop(t, b, id), pending, b, id)
  {
    DropIsSafe(k, t, pending, b, id);
    var pos, last := t.mapInfo[id].nRandomPos, |t.vRandom| - 1;
    if t.mapInfo[id].nRefCount == 1 {
      SwapKeeps(k, t, pending, pos, last);
      var t1 := SwapRandom(t, pos, last);
      assert SameData(t, t1, id);
      ForgetKeeps(k, t1, pending, b, id);
      ForgetMeans(k, t1, pending, b, id);
      forall x ensures Survives(t, Drop(t, b, id), id, x) { assert x in t.mapInfo ==> SameData(t, t1, x); }
    } else {
      LeaveKeeps(k, t, pending, b, id);
      LeaveMeans(k, t, pending, b, id);
      forall x ensures Survives(t, Drop(t, b, id), id, x) {}
    }
  }

  /** Entry `x`, other than the one dropped, stays. */
  ghost predicate Survives(t: Tables, t': Tables, id: int, x: int) {
    x in t.mapInfo && x != id ==>
      x in t'.mapInfo && t'.mapInfo[x] == t.mapInfo[x].(nRandomPos := t'.mapInfo[x].nRandomPos)
  }

  /** `t'` is `t` with entry `id` taken out of new bucket `b`. */
  ghost predicate Dropped(k: Secret, t: Tables, t': Tables, pending: int, b: nat, id: int) {
    && id in t.mapInfo && t.mapInfo[id].addr.ip in Abs(t)
    && Inv(k, t', pending)
    && Abs(t') == OutOfBucket(Abs(t), t.mapInfo[id].addr.ip, b)
    && b < |t.vvNew| && id in t.vvNew[b] && t'.vvNew == t.vvNew[b := t.vvNew[b] - {id}]
    && forall x {:trigger Survives(t, t', id, x)} :: Survives(t, t', id, x)
  }

  lemma LeastExists(s: set<int>) returns (x: int)
    requires s != {}
    ensures x in s && forall y :: y in s ==> x <= y
  {
    assert (forall y :: y !in s) ==> s == {};
    x :| x in s;
    if s != {x} {
      assert s == {x} + (s - {x});
      var y := LeastExists(s - {x});
      if y < x { x := y; }
    }
  }

  lemma HasLeast(s: set<int>)
    requires s != {}
    ensures exists x :: x in s && forall y :: y in s ==> x <= y
  {
    var x := LeastExists(s);
  }

  function Least(s: set<int>): (x: int)
    requires s != {}
    ensures x in s && forall y :: y in s ==> x <= y
  {
    HasLeast(s);
    var x :| x in s && forall y :: y in s ==> x <= y;
    x
  }

  /** The elements in the order in which a std::set goes through them. */
  function Sorted(s: set<int>): seq<int> { if s == {} then [] else [Least(s)] + Sorted(s - {Least(s)}) }

  lemma {:induction false} SortedIs(s: set<int>)
    ensures |Sorted(s)| == |s| && (forall i, j :: 0 <= i < j < |Sorted(s)| ==> Sorted(s)[i] < Sorted(s)[j])
    ensures forall x :: x in Sorted(s) <==> x in s
  {
    if s != {} {
      var x := Least(s);
      var rest := Sorted(s - {x});
      SortedIs(s - {x});
      assert s == {x} + (s - {x});
      forall j | 0 <= j < |rest| ensures x < rest[j] { assert rest[j] in s - {x}; }
      var v := [x] + rest;
      assert v == Sorted(s);
      forall i, j | 0 <= i < j < |v| ensures v[i] < v[j] { if i > 0 { assert rest[i - 1] < rest[j - 1]; } }
    }
  }

  predicate Terrible(t: Tables, x: int, nNow: int) { x in t.mapInfo && t.mapInfo[x].IsTerrible(nNow) }

  /** `x` is at one of the places drawn. */
  ghost predicate Picked(t: Tables, b: nat, draws: seq<nat>, x: int)
    requires b < |t.vvNew|
  {
    var v := Sorted(t.vvNew[b]);
    exists n :: 0 <= n < |v| && n in draws && v[n] == x
  }

  /** `a` has the older time, or the same and the smaller id. */
  predicate Older(t: Tables, a: int, x: int) {
    && a in t.mapInfo && x in t.mapInfo
    && (t.mapInfo[a].addr.nTime < t.mapInfo[x].addr.nTime
        || (t.mapInfo[a].addr.nTime == t.mapInfo[x].addr.nTime && a <= x))
  }

  ghost predicate AnyTerrible(t: Tables, b: nat, nNow: int)
    requires b < |t.vvNew|
  {
    exists x :: x in t.vvNew[b] && Terrible(t, x, nNow)
  }

  /** The entry that ShrinkNew takes out of bucket `b`: the first terrible one; without any, the
      oldest of those at the places drawn. */
  ghost predicate ShrinksTo(t: Tables, b: nat, nNow: int, draws: seq<nat>, victim: int) {
    && b < |t.vvNew| && victim in t.vvNew[b]
    && if AnyTerrible(t, b, nNow)
       then Terrible(t, victim, nNow) && forall x :: x in t.vvNew[b] && Terrible(t, x, nNow) ==> victim <= x
       else Picked(t, b, draws, victim) && forall x :: Picked(t, b, draws, x) ==> Older(t, victim, x)
  }

  /** Four places of a new bucket with `size` entries. */
  predicate PicksOk(draws: seq<nat>, size: nat) { |draws| == 4 && forall i :: 0 <= i < |draws| ==> draws[i] < size }

  /** The loop of ShrinkNew that finds the oldest of the entries at the places drawn. */
  method OldestPick(t: Tables, b: nat, draws: seq<nat>) returns (nOldest: int)
    requires b < |t.vvNew| && NewOk(t, b) && PicksOk(draws, |t.vvNew[b]|) && -1 !in t.vvNew[b]
    ensures nOldest in t.vvNew[b] && Picked(t, b, draws, nOldest)
    ensures forall x :: Picked(t, b, draws, x) ==> Older(t, nOldest, x)
  {
    var v := Sorted(t.vvNew[b]);
    SortedIs(t.vvNew[b]);
    hide Sorted;
    nOldest := -1;
    for nI := 0 to |v|
      invariant nOldest == -1 ==> forall n :: 0 <= n < nI ==> n !in draws
      invariant nOldest != -1 ==> nOldest in t.vvNew[b] && exists n :: 0 <= n < nI && n in draws && v[n] == nOldest
      invariant nOldest != -1 ==> forall n :: 0 <= n < nI && n in draws ==> Older(t, nOldest, v[n])
    {
      assert v[nI] in t.vvNew[b];
      if nI in draws {
        if nOldest == -1 || t.mapInfo[v[nI]].addr.nTime < t.mapInfo[nOldest].addr.nTime {
          nOldest := v[nI];
        }
      }
    }
    assert draws[0] in draws;
  }

  /** The loop of ShrinkNew that looks for a terrible entry. */
  method FirstTerrible(t: Tables, b: nat, nNow: int) returns (found: bool, victim: int)
    requires b < |t.vvNew| && NewOk(t, b)
    ensures found <==> AnyTerrible(t, b, nNow)
    ensures found ==> victim in t.vvNew[b] && Terrible(t, victim, nNow)
    ensures found ==> forall x :: x in t.vvNew[b] && Terrible(t, x, nNow) ==> victim <= x
  {
    var v := Sorted(t.vvNew[b]);
    SortedIs(t.vvNew[b]);
    hide Sorted;
    found, victim := false, -1;
    for n := 0 to |v|
      invariant forall i :: 0 <= i < n ==> !Terrible(t, v[i], nNow)
    {
      assert v[n] in t.vvNew[b];
      if t.mapInfo[v[n]].IsTerrible(nNow) {
        FirstIsLeast(t, b, nNow, v, n);
        return true, v[n];
      }
    }
  }

  /** ShrinkNew: a terrible entry goes first; without one, the oldest of four random picks. */
  method ShrinkNew(k: Secret, t: Tables, b: nat, nNow: int, draws: seq<nat>, ghost pending: int)
    returns (r: int, t': Tables, victim: int)
    requires Inv(k, t, pending) && b < |t.vvNew| && pending !in t.vvNew[b] && PicksOk(draws, |t.vvNew[b]|)
    ensures Dropped(k, t, t', pending, b, victim) && ShrinksTo(t, b, nNow, draws, victim)
    ensures r == if AnyTerrible(t, b, nNow) then 0 else 1
  {
    assert NewOk(t, b);
    assert -1 !in t.vvNew[b] by { assert -1 in t.mapInfo ==> InfoOk(k, t, pending, -1); }
    hide Dropped, Picked, Older, Terrible, AnyTerrible;
    var found;
    found, victim := FirstTerrible(t, b, nNow);
    if !found {
      victim := OldestPick(t, b, draws);
    }
    DropKeeps(k, t, pending, b, victim);
    DropIsSafe(k, t, pending, b, victim);
    return if found then 0 else 1, Drop(t, b, victim), victim;
  }

  lemma FirstIsLeast(t: Tables, b: nat, nNow: int, v: seq<int>, n: nat)
    requires b < |t.vvNew| && v == Sorted(t.vvNew[b]) && n < |v|
    requires Terrible(t, v[n], nNow) && forall i :: 0 <= i < n ==> !Terrible(t, v[i], nNow)
    ensures v[n] in t.vvNew[b] && AnyTerrible(t, b, nNow)
    ensures forall x :: x in t.vvNew[b] && Terrible(t, x, nNow) ==> v[n] <= x
  {
    SortedIs(t.vvNew[b]);
    assert v[n] in v;
    forall x | x in t.vvNew[b] && Terrible(t, x, nNow) ensures v[n] <= x {
      assert x in v;
      var i :| 0 <= i < |v| && v[i] == x;
    }
  }

  // ---------------------------------------------------------------- Add_

  function Max0(x: int): nat { if x > 0 then x else 0 }

  /** What Add_ updates in a known entry. */
  function Refreshed(info: Info, a: Address, nTimePenalty: int, nNow: int): Info {
    var nUpdateInterval := if nNow - a.nTime < 24 * 60 * 60 then 60 * 60 else 24 * 60 * 60;
    var nTime :=
      if a.nTime != 0 && (info.addr.nTime == 0 || info.addr.nTime < a.nTime - nUpdateInterval - nTimePenalty)
      then Max0(a.nTime - nTimePenalty) else info.addr.nTime;
    info.(addr := info.addr.(nTime := nTime, services := info.addr.services + a.services))
  }

  /** An Add_ of a known address goes on to another bucket. */
  predicate MoreNews(e: Entry, a: Address, lucky: bool) {
    && a.nTime != 0 && (e.info.addr.nTime == 0 || a.nTime > e.info.addr.nTime)
    && !e.tried && |e.buckets| != NEW_BUCKETS_PER_ADDRESS && lucky
  }

  /** The tables' meaning once the entry of the added address is there and up to date. */
  function Noted(m: map<nat, Entry>, a: Address, source: nat, nTimePenalty: int, nNow: int): map<nat, Entry> {
    if a.ip in m then m[a.ip := m[a.ip].(info := Refreshed(m[a.ip].info, a, nTimePenalty, nNow))]
    else m[a.ip := Entry(NewInfo(a.(nTime := Max0(a.nTime - nTimePenalty)), source), false, {})]
  }

  /** Add_ on the meaning of the tables: the entry is noted; it enters the bucket of its
      source if it is new or has news; a full bucket first loses the entry ShrinkNew chooses. */
  ghost predicate AddMeans(
    k: Secret, t: Tables, m': map<nat, Entry>,
    a: Address, source: nat, nTimePenalty: int, nNow: int, lucky: bool, draws: seq<nat>, victim: int)
  {
    var n, b := Noted(Abs(t), a, source, nTimePenalty, nNow), k.NewBucket(a.ip, source);
    if a.ip in Abs(t) && (!MoreNews(n[a.ip], a, lucky) || b in n[a.ip].buckets) then m' == n
    else if !FullNew(t, b) then m' == InBucket(n, a.ip, b)
    else
      && ShrinksTo(t, b, nNow, draws, victim) && victim in t.mapInfo
      && var ip := t.mapInfo[victim].addr.ip;
        && ip != a.ip && ip in n && b in n[ip].buckets
        && m' == InBucket(OutOfBucket(n, ip, b), a.ip, b)
  }

  /** The counted-in entry takes its place in new bucket `b`. */
  method EnterNew(k: Secret, t: Tables, id: int, b: nat, nNow: int, draws: seq<nat>)
    returns (t': Tables, ghost victim: int)
    requires id != NONE && Inv(k, t, id) && id in t.mapInfo && !t.mapInfo[id].fInTried
    requires b < |t.vvNew| && id !in t.vvNew[b] && PicksOk(draws, NEW_BUCKET_SIZE)
    ensures Inv(k, t', NONE)
    ensures t.mapInfo[id].addr.ip in Abs(t)
    ensures |t.vvNew[b]| < NEW_BUCKET_SIZE ==> Abs(t') == InBucket(Abs(t), t.mapInfo[id].addr.ip, b)
    ensures |t.vvNew[b]| >= NEW_BUCKET_SIZE ==>
      && ShrinksTo(t, b, nNow, draws, victim) && victim in t.mapInfo
      && var ip := t.mapInfo[victim].addr.ip;
        && ip != t.mapInfo[id].addr.ip && ip in Abs(t) && b in Abs(t)[ip].buckets
        && Abs(t') == InBucket(OutOfBucket(Abs(t), ip, b), t.mapInfo[id].addr.ip, b)
  {
    hide ShrinksTo;
    t' := t;
    victim := 0;
    AbsKeys(t);
    assert NewOk(t, b) && InfoOk(k, t, id, id);
    if |t.vvNew[b]| == NEW_BUCKET_SIZE {
      var r, v;
      r, t', v := ShrinkNew(k, t, b, nNow, draws, id);
      victim := v;
      assert Survives(t, t', v, id);
      assert InfoOk(k, t, id, v) && b in Buckets(t, v);
      assert Dropped(k, t, t', id, b, v);
    }
    assert InfoOk(k, t', id, id);
    PutNewKeeps(k, t', b, id);
    PutNewMeans(t', b, id);
    t' := PutNew(t', b, id);
  }

  /** Whether a bucket is full. */
  predicate FullNew(t: Tables, b: nat) { b < |t.vvNew| && |t.vvNew[b]| == NEW_BUCKET_SIZE }

  /** Changing an entry that is not in the bucket does not change what ShrinkNew chooses. */
  lemma SameShrink(t: Tables, t1: Tables, b: nat, nNow: int, draws: seq<nat>, victim: int)
    requires b < |t.vvNew| && t1.vvNew == t.vvNew && ShrinksTo(t1, b, nNow, draws, victim)
    requires forall x :: x in t.vvNew[b] ==> x in t.mapInfo && x in t1.mapInfo && t1.mapInfo[x] == t.mapInfo[x]
    ensures ShrinksTo(t, b, nNow, draws, victim)
  {
    SortedIs(t.vvNew[b]);
    forall x | x in t.vvNew[b] ensures Terrible(t, x, nNow) <==> Terrible(t1, x, nNow) {}
    forall x ensures Picked(t, b, draws, x) <==> Picked(t1, b, draws, x) {}
    forall x | Picked(t, b, draws, x) ensures x in t.vvNew[b] {}
    if !AnyTerrible(t1, b, nNow) {
      forall x | Picked(t, b, draws, x) ensures Older(t, victim, x) { assert Picked(t1, b, draws, x); }
    }
  }

  method AddKnown(k: Secret, t: Tables, a: Address, source: nat, nTimePenalty: int, nNow: int, lucky: bool,
    draws: seq<nat>)
    returns (t': Tables, ghost victim: int)
    requires Inv(k, t, NONE) && a.ip in t.mapAddr && PicksOk(draws, NEW_BUCKET_SIZE)
    ensures a.ip in Abs(t) && Inv(k, t', NONE)
    ensures AddMeans(k, t, Abs(t'), a, source, nTimePenalty, nNow, lucky, draws, victim)
  {
    hide ShrinksTo, RandomsOk, TriedsOk, CountsOk, TriedIds, NewIds, PicksOk;
    victim := 0;
    AbsKeys(t);
    var b, id := k.NewBucket(a.ip, source), t.mapAddr[a.ip];
    assert NewOk(t, b) && AddrOk(t, a.ip) && InfoOk(k, t, NONE, id);
    var info := Refreshed(t.mapInfo[id], a, nTimePenalty, nNow);
    if a.nTime == 0 || (info.addr.nTime != 0 && a.nTime <= info.addr.nTime)
      || info.fInTried || info.nRefCount == NEW_BUCKETS_PER_ADDRESS || !lucky || id in t.vvNew[b] {
      SetInfoKeeps(k, t, id, info, NONE);
      return SetInfo(t, id, info), victim;
    }
    var more := info.(nRefCount := info.nRefCount + 1);
    SetInfoKeeps(k, t, id, more, id);
    t', victim := EnterNew(k, SetInfo(t, id, more), id, b, nNow, draws);
    if FullNew(t, b) { SameShrink(t, SetInfo(t, id, more), b, nNow, draws, victim); }
  }

  /** The next id is in no bucket, and creating its entry changes none of those in bucket `b`. */
  lemma CreatedBeside(k: Secret, t: Tables, info: Info, b: nat)
    requires Inv(k, t, NONE) && b < |t.vvNew|
    ensures t.nIdCount >= 0 && t.nIdCount !in t.vvNew[b] && |t.vvNew[b]| <= NEW_BUCKET_SIZE
    ensures forall x :: x in t.vvNew[b] ==>
      x in t.mapInfo && x in Created(t, info).mapInfo && Created(t, info).mapInfo[x] == t.mapInfo[x]
  {
    assert NewOk(t, b);
    NextIdIsUnused(k, t, NONE);
  }

  method AddNew(k: Secret, t: Tables, a: Address, source: nat, nTimePenalty: int, nNow: int, lucky: bool,
    draws: seq<nat>)
    returns (t': Tables, ghost victim: int)
    requires Inv(k, t, NONE) && a.ip !in t.mapAddr && PicksOk(draws, NEW_BUCKET_SIZE)
    ensures a.ip !in Abs(t) && Inv(k, t', NONE)
    ensures AddMeans(k, t, Abs(t'), a, source, nTimePenalty, nNow, lucky, draws, victim)
  {
    hide ShrinksTo, InfosOk, RandomsOk, TriedsOk, AddrsOk, Buckets, TriedIds, NewIds, CountsOk, PicksOk;
    var b := k.NewBucket(a.ip, source);
    AbsKeys(t);
    var info := NewInfo(a.(nTime := Max0(a.nTime - nTimePenalty)), source);
    CreatedKeeps(k, t, info);
    CreatedMeans(k, t, info);
    CreatedBeside(k, t, info, b);
    t', victim := EnterNew(k, Created(t, info), t.nIdCount, b, nNow, draws);
    if FullNew(t, b) { SameShrink(t, Created(t, info), b, nNow, draws, victim); }
  }

  /** Add_. `lucky` is the outcome of the stochastic test, which is always drawn since a
      known entry of the new table has a reference count of at least 1; `draws` are the places
      that ShrinkNew draws in a full bucket. */
  method Add(k: Secret, t: Tables, a: Address, source: nat, nTimePenalty: int, routable: bool, nNow: int, lucky: bool,
    draws: seq<nat>)
    returns (fNew: bool, t': Tables, ghost victim: int)
    requires Inv(k, t, NONE) && PicksOk(draws, NEW_BUCKET_SIZE)
    ensures Inv(k, t', NONE)
    ensures fNew == (routable && a.ip !in Abs(t))
    ensures !routable ==> t' == t
    ensures routable ==> AddMeans(k, t, Abs(t'), a, source, nTimePenalty, nNow, lucky, draws, victim)
  {
    victim, t' := 0, t;
    if !routable { return false, t, victim; }
    fNew := a.ip !in t.mapAddr;
    if fNew {
      t', victim := AddNew(k, t, a, source, nTimePenalty, nNow, lucky, draws);
    } else {
      t', victim := AddKnown(k, t, a, source, nTimePenalty, nNow, lucky, draws);
    }
  }

  // ---------------------------------------------------------------- moving to the tried table

  /** `id` out of all new buckets, its reference count at 1 for the place it will get. */
  function Withdrawn(t: Tables, id: int): Tables
    requires id in t.mapInfo
  {
    t.(mapInfo := t.mapInfo[id := t.mapInfo[id].(nRefCount := 1)],
       vvNew := seq(|t.vvNew|, b requires 0 <= b < |t.vvNew| => t.vvNew[b] - {id}))
  }

  /** The data of one entry is kept and its buckets are changed. */
  function WithBuckets(m: map<nat, Entry>, ip: nat, tried: bool, bs: set<nat>): map<nat, Entry>
    requires ip in m
  {
    m[ip := m[ip].(tried := tried, buckets := bs)]
  }

  lemma WithdrawnBuckets(t: Tables, id: int, x: int)
    requires id in t.mapInfo
    ensures Buckets(Withdrawn(t, id), x) == if x == id then {} else Buckets(t, x)
  {}

  lemma WithdrawKeeps(k: Secret, t: Tables, id: int)
    requires Inv(k, t, NONE) && id in t.mapInfo && !t.mapInfo[id].fInTried
    ensures Inv(k, Withdrawn(t, id), id)
  {
    var t' := Withdrawn(t, id);
    assert InfoOk(k, t, NONE, id);
    forall x ensures Kept(t, t', x) {}
    TriedsFrom(k, t, t');
    AddrsFrom(t, t');
    CountsFrom(t, t');
    RandomsFrom(t, t');
    forall c | 0 <= c < |t'.vvNew| ensures NewOk(t', c) { assert NewOk(t, c); }
    forall x | x in t'.mapInfo ensures InfoOk(k, t', id, x) {
      assert InfoOk(k, t, NONE, x);
      WithdrawnBuckets(t, id, x);
    }
  }

  lemma WithdrawMeans(k: Secret, t: Tables, id: int)
    requires Inv(k, t, NONE) && id in t.mapInfo && !t.mapInfo[id].fInTried
    ensures t.mapInfo[id].addr.ip in Abs(t)
    ensures Abs(Withdrawn(t, id)) == WithBuckets(Abs(t), t.mapInfo[id].addr.ip, false, {})
  {
    var t' := Withdrawn(t, id);
    assert InfoOk(k, t, NONE, id);
    WithdrawKeeps(k, t, id);
    AbsKeys(t);
    var m := WithBuckets(Abs(t), t.mapInfo[id].addr.ip, false, {});
    forall ip | ip in t'.mapAddr ensures AbsAt(t', ip) == m[ip] {
      assert AddrOk(t, ip);
      WithdrawnBuckets(t, id, t.mapAddr[ip]);
    }
    AbsIs(t', m);
  }

  /** The pending entry enters its tried bucket, whose list becomes `v`. */
  function Promoted(k: Secret, t: Tables, id: int, v: seq<int>): Tables
    requires id in t.mapInfo && |t.vvTried| == TRIED_BUCKET_COUNT
  {
    t.(mapInfo := t.mapInfo[id := t.mapInfo[id].(nRefCount := 0, fInTried := true)],
       vvTried := t.vvTried[k.TriedBucket(t.mapInfo[id].addr) := v],
       nNew := t.nNew - 1, nTried := t.nTried + 1)
  }

  /** `v` lists the elements of `s` and `id`, each once. */
  ghost predicate Lists(v: seq<int>, s: seq<int>, id: int) {
    Distinct(v) && |v| <= TRIED_BUCKET_SIZE && forall x :: x in v <==> x in s || x == id
  }

  ghost predicate MayPromote(k: Secret, t: Tables, id: int, v: seq<int>) {
    && id != NONE && Inv(k, t, id) && id in t.mapInfo && !t.mapInfo[id].fInTried && Buckets(t, id) == {}
    && Lists(v, t.vvTried[k.TriedBucket(t.mapInfo[id].addr)], id)
  }

  lemma PromoteTables(k: Secret, t: Tables, id: int, v: seq<int>)
    requires MayPromote(k, t, id, v)
    ensures var t' := Promoted(k, t, id, v);
      RandomsOk(t') && AddrsOk(t') && NewsOk(t') && TriedsOk(k, t') && CountsOk(t')
  {
    hide Abs, InfosOk;
    var t', b := Promoted(k, t, id, v), k.TriedBucket(t.mapInfo[id].addr);
    RandomsFrom(t, t');
    forall ip | ip in t'.mapAddr ensures AddrOk(t', ip) { assert AddrOk(t, ip); }
    forall c | 0 <= c < |t'.vvNew| ensures NewOk(t', c) { assert NewOk(t, c); }
    forall c | 0 <= c < |t'.vvTried| ensures TriedOk(k, t', c) {
      assert TriedOk(k, t, c);
      forall x | x in t'.vvTried[c] ensures TriedHere(k, t', c, x) { assert x != id ==> TriedHere(k, t, c, x); }
    }
    assert TriedIds(t') == TriedIds(t) + {id} && id !in TriedIds(t);
    assert NewIds(t') == NewIds(t) - {id} && id in NewIds(t);
  }

  lemma PromoteKeeps(k: Secret, t: Tables, id: int, v: seq<int>)
    requires MayPromote(k, t, id, v)
    ensures t.mapInfo[id].addr.ip in Abs(t)
    ensures Inv(k, Promoted(k, t, id, v), NONE)
    ensures Abs(Promoted(k, t, id, v)) == WithBuckets(Abs(t), t.mapInfo[id].addr.ip, true, {})
  {
    var t' := Promoted(k, t, id, v);
    PromoteTables(k, t, id, v);
    assert forall x :: Buckets(t', x) == Buckets(t, x);
    assert InfoOk(k, t, id, id);
    forall x | x in t'.mapInfo ensures InfoOk(k, t', NONE, x) { assert InfoOk(k, t, id, x); }
    AbsKeys(t);
    var m := WithBuckets(Abs(t), t.mapInfo[id].addr.ip, true, {});
    forall ip | ip in t'.mapAddr ensures AbsAt(t', ip) == m[ip] { assert AddrOk(t, ip); }
    AbsIs(t', m);
  }

  /** A tried entry goes back to new bucket `c`; `v` is what stays of its tried bucket. */
  function Demoted(k: Secret, t: Tables, e: int, c: nat, v: seq<int>): Tables
    requires e in t.mapInfo && |t.vvTried| == TRIED_BUCKET_COUNT && c < |t.vvNew|
  {
    t.(mapInfo := t.mapInfo[e := t.mapInfo[e].(nRefCount := 1, fInTried := false)],
       vvTried := t.vvTried[k.TriedBucket(t.mapInfo[e].addr) := v],
       vvNew := t.vvNew[c := t.vvNew[c] + {e}],
       nNew := t.nNew + 1, nTried := t.nTried - 1)
  }

  ghost predicate MayDemote(k: Secret, t: Tables, pending: int, e: int, c: nat, v: seq<int>) {
    && Inv(k, t, pending) && e != pending && e in t.mapInfo && t.mapInfo[e].fInTried
    && c < |t.vvNew| && |t.vvNew[c]| < NEW_BUCKET_SIZE && e !in v
    && Lists([e] + v, t.vvTried[k.TriedBucket(t.mapInfo[e].addr)], e)
  }

  lemma DemoteTables(k: Secret, t: Tables, pending: int, e: int, c: nat, v: seq<int>)
    requires MayDemote(k, t, pending, e, c, v)
    ensures var t' := Demoted(k, t, e, c, v);
      RandomsOk(t') && AddrsOk(t') && NewsOk(t') && TriedsOk(k, t') && CountsOk(t')
  {
    hide Abs, InfosOk;
    var t', b := Demoted(k, t, e, c, v), k.TriedBucket(t.mapInfo[e].addr);
    RandomsFrom(t, t');
    forall ip | ip in t'.mapAddr ensures AddrOk(t', ip) { assert AddrOk(t, ip); }
    forall d | 0 <= d < |t'.vvNew| ensures NewOk(t', d) { assert NewOk(t, d); }
    assert Distinct(v) by {
      forall i, j | 0 <= i < j < |v| ensures v[i] != v[j] { assert ([e] + v)[i + 1] != ([e] + v)[j + 1]; }
    }
    forall d | 0 <= d < |t'.vvTried| ensures TriedOk(k, t', d) {
      assert TriedOk(k, t, d);
      forall x | x in t'.vvTried[d] ensures TriedHere(k, t', d, x) {
        assert d == b ==> x in [e] + v;
        assert TriedHere(k, t, d, x) && x != e;
      }
    }
    assert TriedIds(t') == TriedIds(t) - {e} && e in TriedIds(t);
    assert NewIds(t') == NewIds(t) + {e} && e !in NewIds(t);
  }

  lemma DemoteBuckets(k: Secret, t: Tables, e: int, c: nat, v: seq<int>, x: int)
    requires e in t.mapInfo && |t.vvTried| == TRIED_BUCKET_COUNT && c < |t.vvNew|
    ensures Buckets(Demoted(k, t, e, c, v), x) == Buckets(t, x) + if x == e then {c} else {}
  {}

  lemma DemoteKeeps(k: Secret, t: Tables, pending: int, e: int, c: nat, v: seq<int>)
    requires MayDemote(k, t, pending, e, c, v)
    ensures Inv(k, Demoted(k, t, e, c, v), pending)
  {
    var t' := Demoted(k, t, e, c, v);
    DemoteTables(k, t, pending, e, c, v);
    assert InfoOk(k, t, pending, e);
    forall x | x in t'.mapInfo ensures InfoOk(k, t', pending, x) {
      assert InfoOk(k, t, pending, x);
      DemoteBuckets(k, t, e, c, v, x);
      assert x in [e] + v <==> x == e || x in v;
    }
  }

  lemma DemoteMeans(k: Secret, t: Tables, e: int, c: nat, v: seq<int>)
    requires AddrsOk(t) && e in t.mapInfo && |t.vvTried| == TRIED_BUCKET_COUNT && c < |t.vvNew| && Buckets(t, e) == {}
    requires t.mapInfo[e].addr.ip in t.mapAddr && t.mapAddr[t.mapInfo[e].addr.ip] == e
    ensures t.mapInfo[e].addr.ip in Abs(t)
    ensures Abs(Demoted(k, t, e, c, v)) == WithBuckets(Abs(t), t.mapInfo[e].addr.ip, false, {c})
  {
    var t' := Demoted(k, t, e, c, v);
    forall ip | ip in t'.mapAddr ensures AddrOk(t', ip) { assert AddrOk(t, ip); }
    AbsKeys(t);
    var m := WithBuckets(Abs(t), t.mapInfo[e].addr.ip, false, {c});
    forall ip | ip in t'.mapAddr ensures AbsAt(t', ip) == m[ip] {
      assert AddrOk(t, ip);
      DemoteBuckets(k, t, e, c, v, t.mapAddr[ip]);
    }
    AbsIs(t', m);
  }

  // ---------------------------------------------------------------- MakeTried and Good_

  /** The same elements, each once, in another order. */
  ghost predicate Shuffled(v: seq<int>, s: seq<int>) {
    Distinct(v) && |v| == |s| && forall x :: x in v <==> x in s
  }

  lemma SwapShuffles(v: seq<int>, s: seq<int>, i: nat, j: nat)
    requires Shuffled(v, s) && i < |v| && j < |v|
    ensures Shuffled(v[i := v[j]][j := v[i]], s)
  {
    var w := v[i := v[j]][j := v[i]];
    forall x ensures x in w <==> x in s {
      if x in v {
        var n :| 0 <= n < |v| && v[n] == x;
        assert w[if n == i then j else if n == j then i else n] == x;
      }
    }
  }

  /** `first` is the place of the least recently successful of the first n entries, the first such. */
  ghost predicate OldestAt(t: Tables, v: seq<int>, n: int, first: int) {
    && 0 <= first < n <= |v| && (forall j :: 0 <= j < n ==> v[j] in t.mapInfo)
    && (forall j :: 0 <= j < n ==> t.mapInfo[v[first]].nLastSuccess <= t.mapInfo[v[j]].nLastSuccess)
    && (forall j :: 0 <= j < first ==> t.mapInfo[v[first]].nLastSuccess < t.mapInfo[v[j]].nLastSuccess)
  }

  function Inspected(size: nat): nat {
    if size < TRIED_ENTRIES_INSPECT_ON_EVICT then size else TRIED_ENTRIES_INSPECT_ON_EVICT
  }

  /** The random places that SelectTried draws from a bucket with `size` entries. */
  predicate DrawsOk(draws: seq<nat>, size: nat) {
    |draws| == TRIED_ENTRIES_INSPECT_ON_EVICT && forall i :: 0 <= i < Inspected(size) ==> i <= draws[i] < size
  }

  /** The bucket after the first `n` of these places were swapped to the front. */
  function Shuffle(v: seq<int>, draws: seq<nat>, n: nat): (w: seq<int>)
    requires DrawsOk(draws, |v|) && n <= Inspected(|v|)
    ensures |w| == |v|
  {
    if n == 0 then v
    else
      var u := Shuffle(v, draws, n - 1);
      u[draws[n - 1] := u[n - 1]][n - 1 := u[draws[n - 1]]]
  }

  /** The next inspected entry is older than all before it, or the oldest of them stays. */
  lemma OldestStep(t: Tables, u: seq<int>, i: nat, first: nat, nPos: nat)
    requires i <= nPos < |u| && (i > 0 ==> OldestAt(t, u, i, first)) && u[nPos] in t.mapInfo
    ensures var v := u[nPos := u[i]][i := u[nPos]];
      if i == 0 || t.mapInfo[v[i]].nLastSuccess < t.mapInfo[v[first]].nLastSuccess then OldestAt(t, v, i + 1, i)
      else OldestAt(t, v, i + 1, first)
  {
    var v := u[nPos := u[i]][i := u[nPos]];
    assert forall j :: 0 <= j < i ==> v[j] == u[j];
  }

  lemma InBucketIsKnown(k: Secret, t: Tables, b: nat, x: int, pending: int)
    requires Inv(k, t, pending) && b < |t.vvTried| && x in t.vvTried[b]
    ensures x in t.mapInfo && x != -1
  {
    assert TriedOk(k, t, b);
    assert TriedHere(k, t, b, x) && InfoOk(k, t, pending, x);
  }

  /** SelectTried. It shuffles up to four entries to the front and finds the least recently
      successful of them, at `first`; but the position it returns is the one that entry was
      drawn from, so the entry there is the one found exactly if the draw had left it in place. */
  method SelectTried(k: Secret, t: Tables, b: nat, draws: seq<nat>, ghost pending: int)
    returns (v: seq<int>, pos: nat, ghost first: nat)
    requires Inv(k, t, pending) && b < |t.vvTried| && t.vvTried[b] != [] && DrawsOk(draws, |t.vvTried[b]|)
    ensures Shuffled(v, t.vvTried[b]) && v == Shuffle(t.vvTried[b], draws, Inspected(|v|))
    ensures OldestAt(t, v, Inspected(|v|), first) && pos == draws[first] < |v|
    ensures v[pos] == v[first] <==> draws[first] == first
  {
    assert TriedOk(k, t, b);
    hide Inv, TriedOk, OldestAt;
    v := t.vvTried[b];
    pos, first := 0, 0;
    var oldest, i := -1, 0;
    while i < TRIED_ENTRIES_INSPECT_ON_EVICT && i < |v|
      invariant 0 <= i <= Inspected(|v|) && Shuffled(v, t.vvTried[b]) && v == Shuffle(t.vvTried[b], draws, i)
      invariant (i == 0 <==> oldest == -1) && (i > 0 ==> first < i && oldest in t.mapInfo)
      invariant i > 0 ==> OldestAt(t, v, i, first) && v[first] == oldest && pos == draws[first]
    {
      var nPos := draws[i];
      ghost var u := v;
      SwapShuffles(v, t.vvTried[b], nPos, i);
      v := v[nPos := v[i]][i := v[nPos]];
      InBucketIsKnown(k, t, b, v[i], pending);
      OldestStep(t, u, i, first, nPos);
      if oldest == -1 || t.mapInfo[v[i]].nLastSuccess < t.mapInfo[oldest].nLastSuccess {
        oldest, pos, first := v[i], nPos, i;
      }
      i := i + 1;
    }
  }

  /** `e` is the entry of the bucket that SelectTried returns the place of. */
  ghost predicate Evicts(t: Tables, v: seq<int>, draws: seq<nat>, e: int) {
    && DrawsOk(draws, |v|)
    && var w := Shuffle(v, draws, Inspected(|v|));
      exists first: nat :: OldestAt(t, w, Inspected(|v|), first) && draws[first] < |w| && e == w[draws[first]]
  }

  /** In a bucket of entries 5 and 6, where 6 succeeded longer ago, drawing place 1 twice finds 6 as
      the oldest but returns the place where 5 is then. */
  lemma WrongEntryGoes(t: Tables)
    requires 5 in t.mapInfo && 6 in t.mapInfo && t.mapInfo[6].nLastSuccess < t.mapInfo[5].nLastSuccess
    ensures var v, draws := [5, 6], [1, 1, 0, 0];
      DrawsOk(draws, |v|) && Shuffle(v, draws, 2) == [6, 5] && OldestAt(t, [6, 5], 2, 0) && Evicts(t, v, draws, 5)
  {
    var v, draws: seq<nat> := [5, 6], [1, 1, 0, 0];
    assert Inspected(2) == 2 && DrawsOk(draws, |v|);
    assert Shuffle(v, draws, 0) == [5, 6] && Shuffle(v, draws, 1) == [6, 5];
    var w := Shuffle(v, draws, 2);
    assert w == [6, 5];
    assert OldestAt(t, w, 2, 0) && draws[0] == 1 && w[draws[0]] == 5;
  }

  /** The loop of MakeTried that takes the entry out of all new buckets brings its
      reference count to 0. */
  method TakeFromAll(k: Secret, t: Tables, id: int) returns (vv: seq<set<int>>, nRefCount: int)
    requires Inv(k, t, NONE) && id in t.mapInfo && !t.mapInfo[id].fInTried
    ensures vv == Withdrawn(t, id).vvNew && nRefCount == 0
  {
    assert InfoOk(k, t, NONE, id);
    vv, nRefCount := t.vvNew, t.mapInfo[id].nRefCount;
    assert t.(vvNew := vv) == t;
    var b := 0;
    while b < |vv|
      invariant 0 <= b <= |vv| == |t.vvNew|
      invariant forall c :: 0 <= c < b ==> vv[c] == t.vvNew[c] - {id}
      invariant forall c :: b <= c < |vv| ==> vv[c] == t.vvNew[c]
      invariant nRefCount == |Buckets(t.(vvNew := vv), id)|
    {
      ghost var was := Buckets(t.(vvNew := vv), id);
      if id in vv[b] {
        vv := vv[b := vv[b] - {id}];
        assert Buckets(t.(vvNew := vv), id) == was - {b} && b in was;
        nRefCount := nRefCount - 1;
      }
      b := b + 1;
    }
    assert Buckets(t.(vvNew := vv), id) == {};
  }

  /** The new bucket an evicted tried entry goes to: the one of its own source if that has
      room once `id` has left it, otherwise the one `id` came from. */
  function BackTo(k: Secret, t: Tables, e: Info, id: int, origin: nat): nat
    requires |t.vvNew| == NEW_BUCKET_COUNT
  {
    var ub := k.NewBucket(e.addr.ip, e.source);
    if |t.vvNew[ub] - {id}| < NEW_BUCKET_SIZE then ub else origin
  }

  /** A full tried bucket. */
  predicate FullTried(k: Secret, t: Tables, a: Address) {
    var b := k.TriedBucket(a);
    b < |t.vvTried| && |t.vvTried[b]| >= TRIED_BUCKET_SIZE
  }

  /** MakeTried on the meaning of the tables: the entry moves to the tried table; if its
      bucket there was full, the entry at the place SelectTried returns goes back to a new bucket. */
  ghost predicate MakeTriedMeans(k: Secret, t: Tables, m: map<nat, Entry>, id: int, origin: nat, draws: seq<nat>,
    e: int) {
    && id in t.mapInfo && |t.vvNew| == NEW_BUCKET_COUNT
    && var a := t.mapInfo[id].addr;
      && a.ip in Abs(t)
      && if !FullTried(k, t, a) then m == WithBuckets(Abs(t), a.ip, true, {})
         else
           && Evicts(t, t.vvTried[k.TriedBucket(a)], draws, e) && e in t.mapInfo
           && var out := t.mapInfo[e].addr.ip;
             && out in Abs(t) && out != a.ip && Abs(t)[out].tried
             && m == WithBuckets(WithBuckets(Abs(t), a.ip, true, {}), out, false,
               {BackTo(k, t, Abs(t)[out].info, id, origin)})
  }

  /** From `t` to `t'`, the evicted entry `e` went to the one new bucket it belongs to by its own address
      and source if that has room without `id`, otherwise to bucket `origin`. */
  ghost predicate SentBack(k: Secret, t: Tables, t': Tables, id: int, origin: nat, e: int) {
    && e in t.mapInfo && t.mapInfo[e].fInTried && e in t'.mapInfo && !t'.mapInfo[e].fInTried
    && t'.mapInfo[e].nRefCount == 1 && |t.vvNew| == |t'.vvNew| == NEW_BUCKET_COUNT
    && var own := k.NewBucket(t.mapInfo[e].addr.ip, t.mapInfo[e].source);
      && (|t.vvNew[own] - {id}| < NEW_BUCKET_SIZE ==> forall b: nat ::
          b < |t'.vvNew| ==> (e in t'.vvNew[b] <==> b == own))
      && (|t.vvNew[own] - {id}| >= NEW_BUCKET_SIZE ==>
        forall b: nat :: b < |t'.vvNew| ==> (e in t'.vvNew[b] <==> b == origin))
  }

  /** Where the evicted entry is in the end. */
  lemma EvictedIsBack(k: Secret, t: Tables, id: int, origin: nat, e: int, c: nat, t': Tables)
    requires Inv(k, t, NONE) && id in t.mapInfo && e in t.mapInfo && e != id && t.mapInfo[e].fInTried
    requires c < |t.vvNew| && t'.vvNew == Withdrawn(t, id).vvNew[c := Withdrawn(t, id).vvNew[c] + {e}]
    requires e in t'.mapInfo && t'.mapInfo[e] == t.mapInfo[e].(nRefCount := 1, fInTried := false)
    requires var own := k.NewBucket(t.mapInfo[e].addr.ip, t.mapInfo[e].source);
      c == if |t.vvNew[own] - {id}| < NEW_BUCKET_SIZE then own else origin
    ensures SentBack(k, t, t', id, origin, e)
  {
    assert InfoOk(k, t, NONE, e);
    forall b: nat | b < |t'.vvNew| ensures e in t'.vvNew[b] <==> b == c {
      assert b !in Buckets(t, e);
    }
  }

  lemma WithdrawnRoom(k: Secret, t: Tables, id: int, origin: nat)
    requires Inv(k, t, NONE) && id in t.mapInfo && origin < |t.vvNew| && id in t.vvNew[origin]
    ensures !t.mapInfo[id].fInTried && |Withdrawn(t, id).vvNew[origin]| < NEW_BUCKET_SIZE
  {
    assert NewOk(t, origin) && InfoOk(k, t, NONE, id) && origin in Buckets(t, id);
  }

  method MakeTriedFree(k: Secret, t: Tables, id: int, vv: seq<set<int>>) returns (t': Tables)
    requires id != NONE && Inv(k, t, NONE) && id in t.mapInfo && !t.mapInfo[id].fInTried
    requires !FullTried(k, t, t.mapInfo[id].addr) && vv == Withdrawn(t, id).vvNew
    ensures Inv(k, t', NONE) && MakeTriedMeans(k, t, Abs(t'), id, 0, [], 0)
  {
    var info, kb := t.mapInfo[id], k.TriedBucket(t.mapInfo[id].addr);
    WithdrawKeeps(k, t, id);
    WithdrawMeans(k, t, id);
    ghost var t1 := Withdrawn(t, id);
    assert TriedOk(k, t, kb);
    assert id !in t.vvTried[kb] by { assert id in t.vvTried[kb] ==> TriedHere(k, t, kb, id); }
    var v := t.vvTried[kb] + [id];
    WithdrawnBuckets(t, id, id);
    PromoteKeeps(k, t1, id, v);
    t' := t.(
      nTried := t.nTried + 1, nNew := t.nNew - 1, vvNew := vv, vvTried := t.vvTried[kb := v],
      mapInfo := t.mapInfo[id := info.(nRefCount := 0, fInTried := true)]);
    assert t' == Promoted(k, t1, id, v);
  }

  /** A shuffled bucket with the entry at `pos` replaced. */
  lemma ReplaceOne(v: seq<int>, s: seq<int>, pos: nat, id: int)
    requires Shuffled(v, s) && pos < |v| <= TRIED_BUCKET_SIZE && id !in s
    ensures var rest := v[..pos] + v[pos + 1..];
      v[pos] !in rest && Lists([v[pos]] + rest, s, v[pos]) && Lists(v[pos := id], rest, id)
  {
    var rest, w := v[..pos] + v[pos + 1..], v[pos := id];
    assert Distinct([v[pos]] + rest);
    forall x ensures (x in v <==> x in rest || x == v[pos]) && (x in w <==> x in rest || x == id) {
      if x in v {
        var n :| 0 <= n < |v| && v[n] == x;
        if n < pos { assert rest[n] == x && w[n] == x; } else if n > pos { assert rest[n - 1] == x && w[n] == x; }
      }
      if x in w {
        var n :| 0 <= n < |w| && w[n] == x;
        if n < pos { assert rest[n] == x; } else if n > pos { assert rest[n - 1] == x; }
      }
      assert w[pos] == id && v[pos] == v[pos];
    }
  }

  /** The entry at `pos` of a shuffled full bucket may go to the bucket it is sent to. */
  lemma EvictionIsSafe(k: Secret, t: Tables, id: int, origin: nat, v: seq<int>, pos: nat)
    requires MayEvictFor(k, t, id, origin, v, pos)
    ensures !t.mapInfo[id].fInTried && v[pos] in t.mapInfo && v[pos] != id
    ensures TriedHere(k, t, k.TriedBucket(t.mapInfo[id].addr), v[pos])
    ensures var c := BackTo(k, t, t.mapInfo[v[pos]], id, origin);
      MayDemote(k, Withdrawn(t, id), id, v[pos], c, v[..pos] + v[pos + 1..])
    ensures Lists(v[pos := id], v[..pos] + v[pos + 1..], id)
  {
    var kb, e := k.TriedBucket(t.mapInfo[id].addr), v[pos];
    WithdrawnRoom(k, t, id, origin);
    WithdrawKeeps(k, t, id);
    assert TriedOk(k, t, kb);
    assert e in t.vvTried[kb];
    assert TriedHere(k, t, kb, e);
    assert id !in t.vvTried[kb] by { assert id in t.vvTried[kb] ==> TriedHere(k, t, kb, id); }
    ReplaceOne(v, t.vvTried[kb], pos, id);
  }

  ghost predicate MayEvictFor(k: Secret, t: Tables, id: int, origin: nat, v: seq<int>, pos: nat) {
    && id != NONE && Inv(k, t, NONE) && id in t.mapInfo && origin < |t.vvNew| && id in t.vvNew[origin]
    && Shuffled(v, t.vvTried[k.TriedBucket(t.mapInfo[id].addr)]) && pos < |v|
  }

  lemma EvictAndPromote(k: Secret, t: Tables, id: int, origin: nat, v: seq<int>, pos: nat)
    requires MayEvictFor(k, t, id, origin, v, pos)
    ensures v[pos] in t.mapInfo && v[pos] != id && TriedHere(k, t, k.TriedBucket(t.mapInfo[id].addr), v[pos])
    ensures Inv(k, EvictedFor(k, t, id, origin, v, pos), NONE)
    ensures var x, y := t.mapInfo[id].addr.ip, t.mapInfo[v[pos]].addr.ip;
      && x in Abs(t) && y in WithBuckets(Abs(t), x, false, {})
      && Abs(EvictedFor(k, t, id, origin, v, pos)) ==
        WithBuckets(
          WithBuckets(WithBuckets(Abs(t), x, false, {}), y, false, {BackTo(k, t, t.mapInfo[v[pos]], id, origin)}),
          x, true, {})
  {
    var e := v[pos];
    EvictionIsSafe(k, t, id, origin, v, pos);
    var c, t1 := BackTo(k, t, t.mapInfo[e], id, origin), Withdrawn(t, id);
    var rest := v[..pos] + v[pos + 1..];
    WithdrawKeeps(k, t, id);
    WithdrawMeans(k, t, id);
    DemoteKeeps(k, t1, id, e, c, rest);
    assert InfoOk(k, t1, id, e);
    DemoteMeans(k, t1, e, c, rest);
    var t2 := Demoted(k, t1, e, c, rest);
    WithdrawnBuckets(t, id, id);
    DemoteBuckets(k, t1, e, c, rest, id);
    PromoteKeeps(k, t2, id, v[pos := id]);
  }

  lemma EvictionMeans(k: Secret, t: Tables, id: int, origin: nat, v: seq<int>, pos: nat, draws: seq<nat>)
    requires MayEvictFor(k, t, id, origin, v, pos) && FullTried(k, t, t.mapInfo[id].addr)
    requires Evicts(t, t.vvTried[k.TriedBucket(t.mapInfo[id].addr)], draws, v[pos])
    ensures v[pos] in t.mapInfo && Inv(k, EvictedFor(k, t, id, origin, v, pos), NONE)
    ensures MakeTriedMeans(k, t, Abs(EvictedFor(k, t, id, origin, v, pos)), id, origin, draws, v[pos])
  {
    hide Shuffle, OldestAt, EvictedFor, InfosOk, RandomsOk, AddrsOk, TriedOk;
    EvictAndPromote(k, t, id, origin, v, pos);
    EvictedMeans(k, t, id, v[pos]);
  }

  /** What the evicted entry was. */
  lemma EvictedMeans(k: Secret, t: Tables, id: int, e: int)
    requires Inv(k, t, NONE) && id in t.mapInfo && e in t.mapInfo && e != id
    ensures var x, y := t.mapInfo[id].addr.ip, t.mapInfo[e].addr.ip;
      x != y && x in Abs(t) && y in Abs(t) && Abs(t)[y] == EntryOf(t, e) && Abs(t)[x] == EntryOf(t, id)
  {
    assert InfoOk(k, t, NONE, id) && InfoOk(k, t, NONE, e);
    AbsKeys(t);
  }

  function EvictedFor(k: Secret, t: Tables, id: int, origin: nat, v: seq<int>, pos: nat): Tables
    requires |t.vvNew| == NEW_BUCKET_COUNT && |t.vvTried| == TRIED_BUCKET_COUNT && origin < |t.vvNew|
    requires id in t.mapInfo && pos < |v| && v[pos] in t.mapInfo
  {
    var c := BackTo(k, t, t.mapInfo[v[pos]], id, origin);
    Promoted(k, Demoted(k, Withdrawn(t, id), v[pos], c, v[..pos] + v[pos + 1..]), id, v[pos := id])
  }

  /** Eviction and promotion in one assignment. */
  lemma EvictedForIs(k: Secret, t: Tables, id: int, origin: nat, v: seq<int>, pos: nat, c: nat)
    requires |t.vvNew| == NEW_BUCKET_COUNT && |t.vvTried| == TRIED_BUCKET_COUNT && origin < |t.vvNew|
    requires id in t.mapInfo && pos < |v| && v[pos] in t.mapInfo && v[pos] != id
    requires k.TriedBucket(t.mapInfo[v[pos]].addr) == k.TriedBucket(t.mapInfo[id].addr)
    requires c == BackTo(k, t, t.mapInfo[v[pos]], id, origin) && c < |t.vvNew|
    ensures var vv := Withdrawn(t, id).vvNew;
      EvictedFor(k, t, id, origin, v, pos) == t.(
        vvNew := vv[c := vv[c] + {v[pos]}], vvTried := t.vvTried[k.TriedBucket(t.mapInfo[id].addr) := v[pos := id]],
        mapInfo := t.mapInfo[v[pos] := t.mapInfo[v[pos]].(nRefCount := 1, fInTried := false)]
                            [id := t.mapInfo[id].(nRefCount := 0, fInTried := true)])
  {}

  /** The branch of MakeTried that replaces an entry of a full bucket. */
  method Replace(k: Secret, t: Tables, id: int, origin: nat, vv: seq<set<int>>, draws: seq<nat>)
    returns (t': Tables, v: seq<int>, pos: nat)
    requires id != NONE && Inv(k, t, NONE) && id in t.mapInfo && origin < |t.vvNew| && id in t.vvNew[origin]
    requires vv == Withdrawn(t, id).vvNew && FullTried(k, t, t.mapInfo[id].addr) && DrawsOk(draws, TRIED_BUCKET_SIZE)
    ensures MayEvictFor(k, t, id, origin, v, pos) && v[pos] in t.mapInfo
    ensures Evicts(t, t.vvTried[k.TriedBucket(t.mapInfo[id].addr)], draws, v[pos])
    ensures t' == EvictedFor(k, t, id, origin, v, pos) && SentBack(k, t, t', id, origin, v[pos])
  {
    var info := t.mapInfo[id];
    var kb := k.TriedBucket(info.addr);
    ghost var first;
    assert TriedOk(k, t, kb);
    v, pos, first := SelectTried(k, t, kb, draws, NONE);
    var e := v[pos];
    EvictionIsSafe(k, t, id, origin, v, pos);
    var infoOld := t.mapInfo[e];
    var ub := k.NewBucket(infoOld.addr.ip, infoOld.source);
    var c := if |vv[ub]| < NEW_BUCKET_SIZE then ub else origin;
    t' := t.(
      vvNew := vv[c := vv[c] + {e}], vvTried := t.vvTried[kb := v[pos := id]],
      mapInfo := t.mapInfo[e := infoOld.(nRefCount := 1, fInTried := false)]
        [id := info.(nRefCount := 0, fInTried := true)]);
    EvictedForIs(k, t, id, origin, v, pos, c);
    EvictedIsBack(k, t, id, origin, e, c, t');
  }

  method MakeTried(k: Secret, t: Tables, id: int, origin: nat, draws: seq<nat>) returns (t': Tables, ghost e: int)
    requires id != NONE && Inv(k, t, NONE) && id in t.mapInfo && origin < |t.vvNew| && id in t.vvNew[origin]
    requires DrawsOk(draws, TRIED_BUCKET_SIZE)
    ensures Inv(k, t', NONE) && MakeTriedMeans(k, t, Abs(t'), id, origin, draws, e)
    ensures FullTried(k, t, t.mapInfo[id].addr) ==> SentBack(k, t, t', id, origin, e)
  {
    e := 0;
    WithdrawnRoom(k, t, id, origin);
    var vv, nRefCount := TakeFromAll(k, t, id);
    if !FullTried(k, t, t.mapInfo[id].addr) {
      t' := MakeTriedFree(k, t, id, vv);
    } else {
      var v, pos;
      t', v, pos := Replace(k, t, id, origin, vv, draws);
      EvictionMeans(k, t, id, origin, v, pos, draws);
      e := v[pos];
    }
  }

  /** The search of Good_ from a random start always finds a bucket of a new entry. */
  method FindBucket(k: Secret, t: Tables, id: int, start: nat) returns (b: nat)
    requires Inv(k, t, NONE) && id in t.mapInfo && !t.mapInfo[id].fInTried && start < |t.vvNew|
    ensures b < |t.vvNew| && id in t.vvNew[b]
  {
    assert InfoOk(k, t, NONE, id);
    ghost var some :| some in Buckets(t, id);
    var n, size := 0, |t.vvNew|;
    ghost var steps := if some >= start then some - start else some + size - start;
    b := start;
    while id !in t.vvNew[b]
      invariant n <= steps < size && b < size
      invariant b == (if n + start < size then n + start else n + start - size)
      decreases steps - n
    {
      n := n + 1;
      b := (n + start) % size;
    }
  }

  /** `a` is a known service, port included. */
  predicate Knows(m: map<nat, Entry>, a: Address) { a.ip in m && SameService(m[a.ip].info.addr, a) }

  function Lauded(info: Info, nTime: int): Info {
    info.(nLastSuccess := nTime, nLastTry := nTime, nAttempts := 0, addr := info.addr.(nTime := nTime))
  }

  function Attempted(info: Info, nTime: int): Info { info.(nLastTry := nTime, nAttempts := info.nAttempts + 1) }

  function Met(info: Info, nTime: int): Info {
    if nTime - info.addr.nTime > 20 * 60 then info.(addr := info.addr.(nTime := nTime)) else info
  }

  /** Other data for the entry of `ip`, in the same place. */
  function WithInfo(m: map<nat, Entry>, ip: nat, info: Info): map<nat, Entry>
    requires ip in m
  {
    m[ip := m[ip].(info := info)]
  }

  /** The bookkeeping is the same. */
  predicate DataOnly(info: Info, info': Info) {
    SameService(info.addr, info'.addr) && info'.(addr := info.addr, nLastSuccess := info.nLastSuccess,
      nLastTry := info.nLastTry, nAttempts := info.nAttempts) == info
  }

  /** Good_, Attempt_ and Connected_ start by changing the data of a known service. */
  method Update(k: Secret, t: Tables, a: Address, f: Info -> Info) returns (t': Tables, id: int)
    requires Inv(k, t, NONE)
    requires forall info: Info {:trigger f(info)} :: DataOnly(info, f(info)) && f(info.Plain()) == f(info).Plain()
    ensures Inv(k, t', NONE)
    ensures Knows(Abs(t), a) ==>
      && id != NONE && a.ip in t.mapAddr && id == t.mapAddr[a.ip] && id in t.mapInfo
      && t' == SetInfo(t, id, f(t.mapInfo[id]))
      && Abs(t') == WithInfo(Abs(t), a.ip, f(Abs(t)[a.ip].info))
    ensures !Knows(Abs(t), a) ==> t' == t && id == NONE
  {
    AbsKeys(t);
    t', id := t, NONE;
    if a.ip in t.mapAddr {
      var n := t.mapAddr[a.ip];
      assert AddrOk(t, a.ip) && InfoOk(k, t, NONE, n);
      if SameService(t.mapInfo[n].addr, a) {
        id := n;
        t' := SetInfo(t, id, f(t.mapInfo[id]));
        SetInfoKeeps(k, t, id, f(t.mapInfo[id]), NONE);
      }
    }
  }

  method Attempt(k: Secret, t: Tables, a: Address, nTime: int) returns (t': Tables)
    requires Inv(k, t, NONE)
    ensures Inv(k, t', NONE)
    ensures Abs(t') == if Knows(Abs(t), a) then WithInfo(Abs(t), a.ip, Attempted(Abs(t)[a.ip].info, nTime)) else Abs(t)
  {
    var id;
    t', id := Update(k, t, a, info => Attempted(info, nTime));
  }

  method Connected(k: Secret, t: Tables, a: Address, nTime: int) returns (t': Tables)
    requires Inv(k, t, NONE)
    ensures Inv(k, t', NONE)
    ensures Abs(t') == if Knows(Abs(t), a) then WithInfo(Abs(t), a.ip, Met(Abs(t)[a.ip].info, nTime)) else Abs(t)
  {
    var id;
    t', id := Update(k, t, a, info => Met(info, nTime));
  }

  /** Good_ on the meaning of the tables. */
  ghost predicate GoodMeans(
    k: Secret, t: Tables, m: map<nat, Entry>, a: Address, nTime: int, draws: seq<nat>, origin: nat, e: int)
  {
    if !Knows(Abs(t), a) then m == Abs(t)
    else
      && a.ip in t.mapAddr && t.mapAddr[a.ip] in t.mapInfo
      && var id := t.mapAddr[a.ip];
        if Abs(t)[a.ip].tried then m == WithInfo(Abs(t), a.ip, Lauded(Abs(t)[a.ip].info, nTime))
        else
          && origin in Abs(t)[a.ip].buckets
          && MakeTriedMeans(k, SetInfo(t, id, Lauded(t.mapInfo[id], nTime)), m, id, origin, draws, e)
  }

  /** Good_ moves the entry of `a` into a full tried bucket. */
  predicate Evicting(k: Secret, t: Tables, a: Address) {
    Knows(Abs(t), a) && !Abs(t)[a.ip].tried && FullTried(k, t, a)
  }

  method Good(k: Secret, t: Tables, a: Address, nTime: int, start: nat, draws: seq<nat>)
    returns (t': Tables, ghost origin: nat, ghost e: int)
    requires Inv(k, t, NONE) && start < |t.vvNew| && DrawsOk(draws, TRIED_BUCKET_SIZE)
    ensures Inv(k, t', NONE) && GoodMeans(k, t, Abs(t'), a, nTime, draws, origin, e)
    ensures a.ip in t.mapAddr && Evicting(k, t, a) ==> SentBack(k, t, t', t.mapAddr[a.ip], origin, e)
  {
    origin, e := 0, 0;
    AbsKeys(t);
    var t1, id := Update(k, t, a, info => Lauded(info, nTime));
    t' := t1;
    if id != NONE && !t1.mapInfo[id].fInTried {
      var b := FindBucket(k, t1, id, start);
      t', e := MakeTried(k, t1, id, b, draws);
      origin := b;
    }
  }

  // ---------------------------------------------------------------- GetAddr_

  function HowMany(size: nat): nat {
    var nNodes := GETADDR_MAX_PCT * size / 100;
    if nNodes > GETADDR_MAX then GETADDR_MAX else nNodes
  }

  /** The n-th address given out is that of the n-th entry of vRandom. */
  ghost predicate GivenOut(t: Tables, vAddr: seq<Address>, n: int) {
    && 0 <= n < |vAddr| && n < |t.vRandom| && t.vRandom[n] in t.mapInfo && vAddr[n] == t.mapInfo[t.vRandom[n]].addr
  }

  /** GetAddr_: a random choice of distinct known addresses; the tables keep their meaning. */
  method GetAddr(k: Secret, t: Tables) returns (vAddr: seq<Address>, t': Tables)
    requires Inv(k, t, NONE)
    ensures Inv(k, t', NONE) && Abs(t') == Abs(t)
    ensures |vAddr| == HowMany(|Abs(t)|)
    ensures forall n :: 0 <= n < |vAddr| ==> vAddr[n].ip in Abs(t) && Abs(t)[vAddr[n].ip].info.addr == vAddr[n]
    ensures forall i, j :: 0 <= i < j < |vAddr| ==> vAddr[i].ip != vAddr[j].ip
  {
    SizeIsRandom(k, t);
    t', vAddr := t, [];
    var nNodes := HowMany(|t.vRandom|);
    for n := 0 to nNodes
      invariant Inv(k, t', NONE) && Abs(t') == Abs(t) && |t'.vRandom| == |t.vRandom|
      invariant |vAddr| == n
      invariant forall i {:trigger GivenOut(t', vAddr, i)} :: 0 <= i < n ==> GivenOut(t', vAddr, i)
    {
      var nRndPos: nat :| n <= nRndPos < |t'.vRandom|;
      SwapKeeps(k, t', NONE, n, nRndPos);
      ghost var was, listed := t', vAddr;
      t' := SwapRandom(t', n, nRndPos);
      assert RandomOk(t', n);
      vAddr := vAddr + [t'.mapInfo[t'.vRandom[n]].addr];
      forall i | 0 <= i < n ensures GivenOut(t', vAddr, i) {
        assert GivenOut(was, listed, i) && SameData(was, t', was.vRandom[i]);
      }
    }
    AbsKeys(t');
    forall n | 0 <= n < |vAddr| ensures vAddr[n].ip in Abs(t) && Abs(t)[vAddr[n].ip].info.addr == vAddr[n] {
      assert GivenOut(t', vAddr, n) && InfoOk(k, t', NONE, t'.vRandom[n]);
    }
    forall i, j | 0 <= i < j < |vAddr| ensures vAddr[i].ip != vAddr[j].ip {
      assert GivenOut(t', vAddr, i) && GivenOut(t', vAddr, j);
      assert InfoOk(k, t', NONE, t'.vRandom[i]) && InfoOk(k, t', NONE, t'.vRandom[j]);
      assert RandomOk(t', i) && RandomOk(t', j);
    }
  }

  /** vRandom, mapInfo and mapAddr have one element per entry, and the counters add up to
      that number. */
  lemma SizeIsRandom(k: Secret, t: Tables)
    requires Inv(k, t, NONE)
    ensures |t.vRandom| == |t.mapInfo| == |Abs(t)| == t.nNew + t.nTried
  {
    hide InfosOk, RandomsOk, AddrsOk, NewsOk, TriedsOk, Abs;
    RandomIsInfos(k, t);
    assert t.mapInfo.Keys == NewIds(t) + TriedIds(t) && NewIds(t) !! TriedIds(t);
    assert |t.mapInfo.Keys| == |t.mapInfo|;
    OnePerAddress(k, t);
  }

  lemma RandomIsInfos(k: Secret, t: Tables)
    requires Inv(k, t, NONE)
    ensures |t.mapInfo.Keys| == |t.vRandom|
  {
    forall x ensures x in t.mapInfo.Keys <==> x in t.vRandom {
      if x in t.mapInfo { assert InfoOk(k, t, NONE, x); }
      if x in t.vRandom { var i :| 0 <= i < |t.vRandom| && x == t.vRandom[i]; assert RandomOk(t, i); }
    }
    forall i, j | 0 <= i < j < |t.vRandom|
      ensures t.vRandom[i] != t.vRandom[j]
    {
      assert RandomOk(t, i) && RandomOk(t, j);
    }
    DistinctCount(t.vRandom, t.mapInfo.Keys);
  }

  lemma DistinctCount<T>(s: seq<T>, all: set<T>)
    requires (forall i, j :: 0 <= i < j < |s| ==> s[i] != s[j]) && forall x :: x in all <==> x in s
    ensures |all| == |s|
  {
    if s == [] {
      assert all == {};
    } else {
      var n := |s| - 1;
      assert forall i :: 0 <= i < n ==> s[..n][i] != s[n];
      assert forall x :: x in all - {s[n]} <==> x in s[..n];
      DistinctCount(s[..n], all - {s[n]});
    }
  }

  lemma OnePerAddress(k: Secret, t: Tables)
    requires Inv(k, t, NONE)
    ensures |Abs(t)| == |t.vRandom|
  {
    AbsKeys(t);
    assert forall i :: 0 <= i < |t.vRandom| ==> RandomOk(t, i);
    var ips := seq<nat>(|t.vRandom|,
      i requires 0 <= i < |t.vRandom| && RandomOk(t, i) => t.mapInfo[t.vRandom[i]].addr.ip);
    forall i, j | 0 <= i < j < |ips| ensures ips[i] != ips[j] {
      assert RandomOk(t, i) && RandomOk(t, j);
      assert InfoOk(k, t, NONE, t.vRandom[i]) && InfoOk(k, t, NONE, t.vRandom[j]);
    }
    forall ip: nat ensures ip in t.mapAddr.Keys <==> ip in ips {
      if ip in t.mapAddr {
        assert AddrOk(t, ip) && InfoOk(k, t, NONE, t.mapAddr[ip]);
        assert ips[t.mapInfo[t.mapAddr[ip]].nRandomPos] == ip;
      }
      if ip in ips {
        var i :| 0 <= i < |ips| && ips[i] == ip;
        assert RandomOk(t, i);
        assert InfoOk(k, t, NONE, t.vRandom[i]);
      }
    }
    DistinctCount(ips, t.mapAddr.Keys);
    assert |Abs(t)| == |Abs(t).Keys|;
  }

  // ---------------------------------------------------------------- CAddrMan

  class Manager {
    const k: Secret
    var t: Tables

    ghost predicate Valid()
      reads this
    {
      Inv(k, t, NONE)
    }

    /** What the manager knows. */
    ghost function Known(): map<nat, Entry>
      reads this
    {
      Abs(t)
    }

    constructor (k: Secret)
      ensures Valid() && Known() == map[] && this.k == k
    {
      this.k := k;
      t := Empty();
      new;
      EmptyOk(k);
    }

    method Add_(a: Address, source: nat, nTimePenalty: int, routable: bool, nNow: int, lucky: bool, draws: seq<nat>)
      returns (fNew: bool)
      requires Valid() && PicksOk(draws, NEW_BUCKET_SIZE)
      modifies this
      ensures Valid()
      ensures fNew == (routable && a.ip !in old(Known()))
      ensures !routable ==> t == old(t)
      ensures routable ==>
        exists victim :: AddMeans(k, old(t), Known(), a, source, nTimePenalty, nNow, lucky, draws, victim)
    {
      ghost var victim;
      fNew, t, victim := Add(k, t, a, source, nTimePenalty, routable, nNow, lucky, draws);
      assert routable ==> AddMeans(k, old(t), Known(), a, source, nTimePenalty, nNow, lucky, draws, victim);
    }

    method Good_(a: Address, nTime: int, start: nat, draws: seq<nat>)
      requires Valid() && start < NEW_BUCKET_COUNT && DrawsOk(draws, TRIED_BUCKET_SIZE)
      modifies this
      ensures Valid()
      ensures exists origin, e ::
        && GoodMeans(k, old(t), Known(), a, nTime, draws, origin, e)
        && (a.ip in old(t).mapAddr && Evicting(k, old(t), a) ==>
          SentBack(k, old(t), t, old(t).mapAddr[a.ip], origin, e))
    {
      ghost var origin, e;
      t, origin, e := Good(k, t, a, nTime, start, draws);
      assert GoodMeans(k, old(t), Known(), a, nTime, draws, origin, e);
    }

    method Attempt_(a: Address, nTime: int)
      requires Valid()
      modifies this
      ensures Valid()
      ensures var m := old(Known());
        Known() == if Knows(m, a) then WithInfo(m, a.ip, Attempted(m[a.ip].info, nTime)) else m
    {
      t := Attempt(k, t, a, nTime);
    }

    method Connected_(a: Address, nTime: int)
      requires Valid()
      modifies this
      ensures Valid()
      ensures var m := old(Known());
        Known() == if Knows(m, a) then WithInfo(m, a.ip, Met(m[a.ip].info, nTime)) else m
    {
      t := Connected(k, t, a, nTime);
    }

    method GetAddr_() returns (vAddr: seq<Address>)
      requires Valid()
      modifies this
      ensures Valid() && Known() == old(Known())
      ensures |vAddr| == HowMany(|Known()|)
      ensures forall n :: 0 <= n < |vAddr| ==> vAddr[n].ip in Known() && Known()[vAddr[n].ip].info.addr == vAddr[n]
      ensures forall i, j :: 0 <= i < j < |vAddr| ==> vAddr[i].ip != vAddr[j].ip
    {
      vAddr, t := GetAddr(k, t);
    }
  }
}
