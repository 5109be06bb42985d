/**
 The in-memory refresh-token blacklist: a capped map from token id to expiry, with lazy
 erasure, purging on writes and eviction of the soonest-expiring entry.  Times are ticks of
 the steady clock; every call is given the readings it makes.
 */
module TokenStore {
  import opened Options

  type Jti = string

  type Blacklist = map<Jti, int>

  const TICKS_PER_SECOND := 1_000_000_000

  /** The answer the blacklist gives about `jti` at `now`. */
  predicate Listed(b: Blacklist, jti: Jti, now: int) {
    jti in b && now < b[jti]
  }

  function Live(b: Blacklist, now: int): Blacklist {
    map jti | jti in b && now < b[jti] :: b[jti]
  }

  ghost predicate IsSoonest(b: Blacklist, jti: Jti) {
    jti in b && forall k | k in b :: b[jti] <= b[k]
  }

  /**
   Which entry, if any, a revocation at `now` evicts: the soonest to expire, exactly when the live entries fill the
   cap.
   */
  ghost predicate IsVictim(b: Blacklist, cap: nat, now: int, victim: Option<Jti>) {
    && (victim.Some? <==> cap > 0 && |Live(b, now)| >= cap)
    && (victim.Some? ==> IsSoonest(Live(b, now), victim.value))
  }

  function Revoked(b: Blacklist, jti: Jti, expiry: int, now: int, victim: Option<Jti>): Blacklist {
    var kept := if victim.Some? then Live(b, now) - {victim.value} else Live(b, now);
    if jti in kept then kept else kept[jti := expiry]
  }

  lemma LiveNoLarger(b: Blacklist, now: int)
    ensures |Live(b, now)| <= |b|
  {
    var l := Live(b, now);
    assert l.Keys <= b.Keys;
    SubsetCard(l.Keys, b.Keys);
  }

  lemma {:induction false} SubsetCard(a: set<Jti>, b: set<Jti>)
    requires a <= b
    ensures |a| <= |b|
  {
    if a != {} {
      var x :| x in a;
      SubsetCard(a - {x}, b - {x});
    }
  }

  class InMemoryRefreshTokenStore {
    const maxEntries: nat
    var blacklist: Blacklist

    constructor (maxEntries: nat)
      ensures this.maxEntries == maxEntries && blacklist == map[]
    {
      this.maxEntries, blacklist := maxEntries, map[];
    }

    method PurgeExpired(now: int) returns (removed: nat)
      modifies this
      ensures blacklist == Live(old(blacklist), now)
      ensures forall k :: k in blacklist <==> k in old(blacklist) && old(blacklist)[k] > now
      ensures forall k | k in blacklist :: blacklist[k] == old(blacklist)[k]
      ensures removed == |old(blacklist)| - |blacklist|
    {
      removed := 0;
      var todo := blacklist.Keys;
      while todo != {}
        invariant todo <= blacklist.Keys <= old(blacklist).Keys
        invariant forall k | k in blacklist :: blacklist[k] == old(blacklist)[k]
        invariant forall k | k in old(blacklist) && k !in todo :: k in blacklist <==> now < old(blacklist)[k]
        invariant removed == |old(blacklist)| - |blacklist|
        decreases todo
      {
        var k :| k in todo;
        todo := todo - {k};
        if now >= blacklist[k] {
          ghost var before := blacklist;
          blacklist := blacklist - {k};
          assert blacklist.Keys == before.Keys - {k};
          removed := removed + 1;
        }
      }
      assert blacklist == Live(old(blacklist), now);
    }

    method Soonest() returns (soonest: Jti)
      requires blacklist != map[]
      ensures IsSoonest(blacklist, soonest)
    {
      soonest :| soonest in blacklist;
      var todo := blacklist.Keys;
      while todo != {}
        invariant todo <= blacklist.Keys && soonest in blacklist
        invariant forall k | k in blacklist && k !in todo :: blacklist[soonest] <= blacklist[k]
        decreases todo
      {
        var k :| k in todo;
        todo := todo - {k};
        if blacklist[k] < blacklist[soonest] {
          soonest := k;
        }
      }
    }

    /** `started` is read before the lock is taken and `now` under it; `evicted` is the entry given up for room. */
    method Revoke(jti: Jti, ttlSeconds: int, started: int, now: int) returns (evicted: Option<Jti>)
      modifies this
      ensures jti == "" || ttlSeconds <= 0 ==> blacklist == old(blacklist) && evicted == None
      ensures jti != "" && ttlSeconds > 0 ==>
                && IsVictim(old(blacklist), maxEntries, now, evicted)
                && blacklist == Revoked(old(blacklist), jti, started + ttlSeconds * TICKS_PER_SECOND, now, evicted)
    {
      evicted := None;
      if jti == "" || ttlSeconds <= 0 {
        return;
      }
      var expiry := started + ttlSeconds * TICKS_PER_SECOND;
      var _ := PurgeExpired(now);
      if maxEntries > 0 && |blacklist| >= maxEntries {
        var soonest := Soonest();
        evicted := Some(soonest);
        blacklist := blacklist - {soonest};
      }
      if jti !in blacklist {
        blacklist := blacklist[jti := expiry];
      }
    }

    method IsRevoked(jti: Jti, now: int) returns (revoked: bool)
      modifies this
      ensures revoked <==> jti != "" && Listed(old(blacklist), jti, now)
      ensures revoked <==> jti != "" && jti in old(blacklist) && old(blacklist)[jti] > now
      ensures blacklist == if jti != "" && !Listed(old(blacklist), jti, now) then old(blacklist) - {jti}
                else old(blacklist)
    {
      if jti == "" || jti !in blacklist {
        assert blacklist - {jti} == blacklist || jti == "";
        return false;
      }
      if now >= blacklist[jti] {
        blacklist := blacklist - {jti};
        return false;
      }
      revoked := true;
    }
  }

  // ---- runs ---------------------------------------------------------------------------

  /** The calls that touch the map, in lock order. */
  datatype Call =
    | Revoke(jti: Jti, expiry: int, now: int, victim: Option<Jti>)
    | Ask(jti: Jti, now: int)
    | Purge(now: int)

  /** An eviction, with the entries the store held at that moment. */
  datatype Eviction = Eviction(jti: Jti, now: int, entries: Blacklist)

  /** The store beside the reference: an uncapped map in which the first unexpired revocation wins. */
  datatype Stores = Stores(cap: nat, clock: int, store: Blacklist, reference: Blacklist, evictions: seq<Eviction>)

  function Init(cap: nat, clock: int): Stores {
    Stores(cap, clock, map[], map[], [])
  }

  ghost predicate Possible(s: Stores, c: Call) {
    && s.clock <= c.now
    && (c.Revoke? ==> IsVictim(s.store, s.cap, c.now, c.victim))
  }

  function After(s: Stores, c: Call): Stores {
    match c
    case Revoke(jti, expiry, now, victim) =>
      Stores(s.cap, now, Revoked(s.store, jti, expiry, now, victim),
             if Listed(s.reference, jti, now) then s.reference else s.reference[jti := expiry],
             if victim.Some? then s.evictions + [Eviction(victim.value, now, Live(s.store, now))] else s.evictions)
    case Ask(jti, now) =>
      s.(clock := now, store := if Listed(s.store, jti, now) then s.store else s.store - {jti})
    case Purge(now) => s.(clock := now, store := Live(s.store, now))
  }

  ghost predicate Happens(s: Stores, calls: seq<Call>, end: Stores)
    decreases |calls|
  {
    if calls == [] then end == s
    else Possible(s, calls[0]) && Happens(After(s, calls[0]), calls[1..], end)
  }

  ghost predicate EverEvicted(s: Stores, jti: Jti) {
    exists k | 0 <= k < |s.evictions| :: s.evictions[k].jti == jti
  }

  /** For a token id never evicted, the store and the reference hold the same live entry. */
  ghost predicate Agree(s: Stores, jti: Jti) {
    && (Listed(s.store, jti, s.clock) <==> Listed(s.reference, jti, s.clock))
    && (Listed(s.store, jti, s.clock) ==> s.store[jti] == s.reference[jti])
  }

  ghost predicate EvictionOk(cap: nat, e: Eviction) {
    && |e.entries| == cap
    && IsSoonest(e.entries, e.jti)
    && forall k | k in e.entries :: e.now < e.entries[k]
  }

  ghost predicate Inv(s: Stores) {
    && (s.cap > 0 ==> |s.store| <= s.cap)
    && (forall jti :: EverEvicted(s, jti) || Agree(s, jti))
    && (forall k | 0 <= k < |s.evictions| :: EvictionOk(s.cap, s.evictions[k]))
  }

  lemma RevokedSize(kept: Blacklist, jti: Jti, expiry: int)
    ensures |kept[jti := expiry]| <= |kept| + 1
  {
    assert kept[jti := expiry].Keys == kept.Keys + {jti};
  }

  lemma RemovedSize(b: Blacklist, jti: Jti)
    ensures |b - {jti}| == if jti in b then |b| - 1 else |b|
  {
    assert (b - {jti}).Keys == b.Keys - {jti};
  }

  lemma SizeKept(s: Stores, c: Call)
    requires Possible(s, c) && s.cap > 0 && |s.store| <= s.cap
    ensures |After(s, c).store| <= s.cap
  {
    LiveNoLarger(s.store, c.now);
    match c
    case Revoke(jti, expiry, now, victim) =>
      var kept := Live(s.store, now);
      if victim.Some? {
        RemovedSize(kept, victim.value);
        kept := kept - {victim.value};
      }
      RevokedSize(kept, jti, expiry);
    case Ask(jti, _) => RemovedSize(s.store, jti);
    case Purge(_) =>
  }

  lemma EvictedStays(s: Stores, c: Call, jti: Jti)
    ensures EverEvicted(s, jti) ==> EverEvicted(After(s, c), jti)
    ensures c.Revoke? && c.victim == Some(jti) ==> EverEvicted(After(s, c), jti)
  {
    var s' := After(s, c);
    if EverEvicted(s, jti) {
      var k :| 0 <= k < |s.evictions| && s.evictions[k].jti == jti;
      assert s'.evictions[k] == s.evictions[k];
    }
    if c.Revoke? && c.victim == Some(jti) {
      assert s'.evictions[|s.evictions|].jti == jti;
    }
  }

  lemma AgreeKept(s: Stores, c: Call, jti: Jti)
    requires Agree(s, jti) && Possible(s, c) && !(c.Revoke? && c.victim == Some(jti))
    ensures Agree(After(s, c), jti)
  {
  }

  lemma CallKeepsInv(s: Stores, c: Call)
    requires Inv(s) && Possible(s, c)
    ensures Inv(After(s, c))
  {
    var s' := After(s, c);
    if s.cap > 0 {
      SizeKept(s, c);
    }
    forall jti
      ensures EverEvicted(s', jti) || Agree(s', jti)
    {
      EvictedStays(s, c, jti);
      assert EverEvicted(s, jti) || Agree(s, jti);
      if Agree(s, jti) && !(c.Revoke? && c.victim == Some(jti)) {
        AgreeKept(s, c, jti);
      }
    }
    LiveNoLarger(s.store, c.now);
    forall k | 0 <= k < |s'.evictions|
      ensures EvictionOk(s.cap, s'.evictions[k])
    {
      assert k < |s.evictions| ==> EvictionOk(s.cap, s.evictions[k]);
    }
  }

  lemma {:induction false} RunKeepsInv(s: Stores, calls: seq<Call>, end: Stores)
    requires Inv(s) && Happens(s, calls, end)
    ensures Inv(end) && end.cap == s.cap && s.clock <= end.clock
    decreases |calls|
  {
    if calls != [] {
      CallKeepsInv(s, calls[0]);
      RunKeepsInv(After(s, calls[0]), calls[1..], end);
    }
  }

  /**
   Over any sequence of calls: the size stays within a nonzero cap; at every later moment the
   store answers about a token id exactly as the uncapped reference does, unless that id was
   evicted; and an entry is evicted only from a store holding exactly `cap` entries, all live
   and all expiring no earlier than it.
   */
  lemma AnswersLikeReference(cap: nat, clock: int, calls: seq<Call>, end: Stores, jti: Jti, later: int)
    requires Happens(Init(cap, clock), calls, end) && end.clock <= later
    ensures cap > 0 ==> |end.store| <= cap
    ensures !EverEvicted(end, jti) ==> (Listed(end.store, jti, later) <==> Listed(end.reference, jti, later))
    ensures forall k | 0 <= k < |end.evictions| :: EvictionOk(cap, end.evictions[k])
  {
    var s := Init(cap, clock);
    assert forall j :: Agree(s, j);
    RunKeepsInv(s, calls, end);
    assert EverEvicted(end, jti) || Agree(end, jti);
  }

  /** A cap of zero never evicts, so then the answers always agree. */
  lemma {:induction false} UncappedNeverEvicts(s: Stores, calls: seq<Call>, end: Stores)
    requires s.cap == 0 && Happens(s, calls, end)
    ensures end.evictions == s.evictions
    decreases |calls|
  {
    if calls != [] {
      UncappedNeverEvicts(After(s, calls[0]), calls[1..], end);
    }
  }
}
