/** What the rules of the address manager mean over time: how far one network group reaches, when an
    address becomes terrible, and what an update keeps (src/addrman.h, src/addrman.cpp). */
module AddrPolicy {
  import opened Basics
  import opened AddrMan

  // ---------------------------------------------------------------- buckets

  /** At most n values. */
  lemma {:induction false} AtMost(s: set<nat>, f: nat -> nat, n: nat)
    requires forall b :: b in s ==> exists i: nat :: i < n && f(i) == b
    ensures |s| <= n
  {
    if n == 0 {
      assert s == {};
    } else {
      var rest := s - {f(n - 1)};
      forall b | b in rest ensures exists i: nat :: i < n - 1 && f(i) == b {
        var i: nat :| i < n && f(i) == b;
        assert i < n - 1;
      }
      AtMost(rest, f, n - 1);
      assert s <= rest + {f(n - 1)};
      assert |s| <= |rest + {f(n - 1)}| by { SubsetSize(s, rest + {f(n - 1)}); }
    }
  }

  /** The tried buckets that hold an address of network group `g`. */
  ghost function TriedOf(k: Secret, t: Tables, g: seq<nat>): set<nat> {
    set b: nat, id | b < |t.vvTried| && id in t.vvTried[b] && id in t.mapInfo && k.group(t.mapInfo[id].addr.ip) == g
      :: b
  }

  /** However many addresses of one group the manager knows, they are in at most 4 of the tried buckets. */
  lemma GroupInFewTried(k: Secret, t: Tables, g: seq<nat>)
    requires Inv(k, t, NONE)
    ensures |TriedOf(k, t, g)| <= TRIED_BUCKETS_PER_GROUP
  {
    var f: nat -> nat := (i: nat) => k.hash(k.nKey + g + [i]) % TRIED_BUCKET_COUNT;
    forall b | b in TriedOf(k, t, g) ensures exists i: nat :: i < TRIED_BUCKETS_PER_GROUP && f(i) == b {
      var id :| id in t.vvTried[b] && id in t.mapInfo && k.group(t.mapInfo[id].addr.ip) == g;
      assert TriedOk(k, t, b) && TriedHere(k, t, b, id);
      var a := t.mapInfo[id].addr;
      assert f(k.hash(k.nKey + [a.ip, a.port]) % TRIED_BUCKETS_PER_GROUP) == b;
    }
    AtMost(TriedOf(k, t, g), f, TRIED_BUCKETS_PER_GROUP);
  }

  /** Whatever addresses the sources of one group advertise, they reach at most 32 of the new buckets. */
  lemma SourceReachesFewNew(k: Secret, ads: set<(nat, nat)>, g: seq<nat>)
    requires forall p :: p in ads ==> k.group(p.1) == g
    ensures |set p | p in ads :: k.NewBucket(p.0, p.1)| <= NEW_BUCKETS_PER_SOURCE_GROUP
  {
    var f: nat -> nat := (i: nat) => k.hash(k.nKey + g + [i]) % NEW_BUCKET_COUNT;
    var s := set p | p in ads :: k.NewBucket(p.0, p.1);
    forall b | b in s ensures exists i: nat :: i < NEW_BUCKETS_PER_SOURCE_GROUP && f(i) == b {
      var p :| p in ads && k.NewBucket(p.0, p.1) == b;
      assert f(k.hash(k.nKey + k.group(p.0) + k.group(p.1)) % NEW_BUCKETS_PER_SOURCE_GROUP) == b;
    }
    AtMost(s, f, NEW_BUCKETS_PER_SOURCE_GROUP);
  }

  // ---------------------------------------------------------------- terrible addresses

  const DAY := 86400

  /** The entry after attempts at the given times. */
  function Tried(info: Info, times: seq<int>): Info {
    if times == [] then info else Attempted(Tried(info, times[..|times| - 1]), times[|times| - 1])
  }

  lemma {:induction false} TriedIs(info: Info, times: seq<int>)
    ensures Tried(info, times) == info.(
      nAttempts := info.nAttempts + |times|, nLastTry := if times == [] then info.nLastTry else times[|times| - 1])
  {
    if times != [] { TriedIs(info, times[..|times| - 1]); }
  }

  /** An address that was good has a week for failures: no number of them makes it terrible. */
  lemma GoodHasAWeek(info: Info, nTime: int, times: seq<int>, nNow: int)
    requires 0 < nTime && nTime - 600 <= nNow <= nTime + 7 * DAY
    ensures !Tried(Lauded(info, nTime), times).IsTerrible(nNow)
  {
    TriedIs(Lauded(info, nTime), times);
  }

  /** After that week, and within a month, it is terrible from the tenth failure on, a minute after it. */
  lemma TenFailures(info: Info, nTime: int, times: seq<int>, nNow: int)
    requires 0 < nTime && nTime + 7 * DAY < nNow <= nTime + 30 * DAY
    requires forall i :: 0 <= i < |times| ==> 0 < times[i] < nNow - 60
    ensures Tried(Lauded(info, nTime), times).IsTerrible(nNow) <==> |times| >= 10
  {
    TriedIs(Lauded(info, nTime), times);
  }

  /** An address that was never good is terrible from the third failure on, a minute after it. */
  lemma ThreeFailures(a: Address, source: nat, times: seq<int>, nNow: int)
    requires 0 < a.nTime <= nNow + 600 && nNow <= a.nTime + 30 * DAY && nNow > 7 * DAY
    requires forall i :: 0 <= i < |times| ==> 0 < times[i] < nNow - 60
    ensures Tried(NewInfo(a, source), times).IsTerrible(nNow) <==> |times| >= 3
  {
    TriedIs(NewInfo(a, source), times);
  }

  /** Whatever else is known, a try spares an address for a minute; without one it is terrible if it
      has no time, one more than ten minutes ahead, or one more than a month old. */
  lemma TimeDecides(info: Info, nNow: int)
    ensures info.nLastTry > 0 && nNow <= info.nLastTry + 60 ==> !info.IsTerrible(nNow)
    ensures info.nLastTry <= 0 && nNow > 60 ==>
      info.addr.nTime == 0 || info.addr.nTime > nNow + 600 || nNow > info.addr.nTime + 30 * DAY ==>
      info.IsTerrible(nNow)
  {}

  // ---------------------------------------------------------------- updates

  /** Add_ never makes a known address older or forgets a service; afterwards the time is at most a day
      and the penalty behind the one advertised, and it is never ahead of both. */
  lemma RefreshedIsFresh(info: Info, a: Address, nTimePenalty: nat, nNow: int)
    requires info.addr.nTime >= 0 && a.nTime >= 0
    ensures var after := Refreshed(info, a, nTimePenalty, nNow);
      && after.addr.nTime >= info.addr.nTime && after.addr.services == info.addr.services + a.services
      && (a.nTime > 0 ==> after.addr.nTime >= a.nTime - nTimePenalty - DAY)
      && (a.nTime > 0 && nNow - a.nTime < DAY ==> after.addr.nTime >= a.nTime - nTimePenalty - 3600)
      && (after.addr.nTime <= info.addr.nTime || after.addr.nTime <= a.nTime - nTimePenalty)
      && (info.addr.nTime > 0 && info.addr.nTime + nTimePenalty + 3600 >= a.nTime
          ==> after.addr.nTime == info.addr.nTime)
      && DataOnly(info.(addr := info.addr.(services := {})), after.(addr := after.addr.(services := {})))
  {}

  /** Connected_ leaves a time that is at most 20 minutes old, and never an older one; within 20 minutes
      it changes nothing, so that a connection does not give away when it was. */
  lemma MetIsFresh(info: Info, nTime: int)
    ensures var after := Met(info, nTime);
      && after.addr.nTime >= info.addr.nTime && nTime - after.addr.nTime <= 1200
      && (nTime - info.addr.nTime <= 1200 <==> after == info)
  {}

  /** 23 percent of the addresses, rounded down, but no more than 2500. */
  lemma HowManyIs(size: nat)
    ensures HowMany(size) <= 2500 && 100 * HowMany(size) <= 23 * size
    ensures HowMany(size) < 2500 ==> 23 * size < 100 * (HowMany(size) + 1)
  {}

  // ---------------------------------------------------------------- Add_

  /** An advertisement that is not newer than what is known, or of a tried address, moves nothing: no
      entry changes its place, and only the data of its own address can change. */
  lemma StaleMovesNothing(k: Secret, t: Tables, m: map<nat, Entry>, a: Address, source: nat, nTimePenalty: nat,
    nNow: int, lucky: bool, draws: seq<nat>, victim: int)
    requires Inv(k, t, NONE) && AddMeans(k, t, m, a, source, nTimePenalty, nNow, lucky, draws, victim)
    requires a.ip in Abs(t) && a.nTime >= 0
    requires Abs(t)[a.ip].tried || a.nTime == 0 || (0 < a.nTime <= Abs(t)[a.ip].info.addr.nTime) || !lucky
    ensures m.Keys == Abs(t).Keys
    ensures forall ip :: ip in m ==> m[ip].tried == Abs(t)[ip].tried && m[ip].buckets == Abs(t)[ip].buckets
    ensures forall ip :: ip in m && ip != a.ip ==> m[ip] == Abs(t)[ip]
  {}

  /** What Add_ does to the places: the address may enter the one bucket of its source, and one entry at
      most leaves that bucket, being forgotten exactly if it was in no other. */
  lemma AddMovesOne(k: Secret, t: Tables, m: map<nat, Entry>, a: Address, source: nat, nTimePenalty: int,
    nNow: int, lucky: bool, draws: seq<nat>, victim: int, ip: nat)
    requires Inv(k, t, NONE) && AddMeans(k, t, m, a, source, nTimePenalty, nNow, lucky, draws, victim)
    requires ip in Abs(t) && ip != a.ip
    ensures var e, b := Abs(t)[ip], k.NewBucket(a.ip, source);
      && (ip !in m ==> e.buckets == {b})
      && (ip in m ==> m[ip].info == e.info && m[ip].tried == e.tried && e.buckets - {b} <= m[ip].buckets <= e.buckets)
  {
    hide Inv, ShrinksTo, Abs, FullNew, MoreNews, Refreshed;
  }
}
