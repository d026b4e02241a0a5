/**
 The expiring identity cache: it deletes lazily, and answers as a plain map from addresses to
 the last thing set, read through its expiry, would. Under concurrency it may miss, never lie.
 */
module IdentityCache {
  import opened Bytes
  import opened Options

  datatype Identity = Identity(serverAddress: string, publicKey: seq<byte>)

  /** A full identity or just a key; without an expiry it stays for good. */
  datatype CacheEntry = CacheEntry(identity: Option<Identity>, publicKey: seq<byte>, expiresAt: Option<int>)

  type Cache = map<string, CacheEntry>

  predicate Stale(e: CacheEntry, now: int) {
    e.expiresAt.Some? && now > e.expiresAt.value
  }

  function ExpiryFrom(ttl: int, now: int): Option<int> {
    if ttl > 0 then Some(now + ttl) else None
  }

  /** What a map answers at a given time, expired entries counting as absent. */
  function Lookup(m: Cache, addr: string, now: int): Option<CacheEntry> {
    if addr in m && !Stale(m[addr], now) then Some(m[addr]) else None
  }

  /** A hit is an entry that has no expiry, or whose expiry has not passed. */
  lemma HitsOutright(m: Cache, addr: string, now: int)
    ensures Lookup(m, addr, now).Some? <==>
            addr in m && (m[addr].expiresAt.None? || now <= m[addr].expiresAt.value)
    ensures Lookup(m, addr, now).Some? ==> Lookup(m, addr, now).value == m[addr]
  {
  }

  /** A full identity filed under an address that is not its own. */
  predicate Misfiled(addr: string, e: CacheEntry) {
    e.identity.Some? && e.identity.value.serverAddress != addr
  }

  class IdentityCacheManager {
    var cache: Cache
    const ttl: int

    constructor (ttl: int)
      ensures cache == map[] && this.ttl == ttl
    {
      cache := map[];
      this.ttl := ttl;
    }

    method Get(addr: string, now: int) returns (r: Option<CacheEntry>)
      modifies this
      ensures r == Lookup(old(cache), addr, now)
      ensures cache == if r.None? then old(cache) - {addr} else old(cache)
    {
      if addr !in cache {
        assert cache - {addr} == cache;
        return None;
      }
      var cached := cache[addr];
      if cached.expiresAt.Some? && now > cached.expiresAt.value {
        cache := cache - {addr};
        return None;
      }
      return Some(cached);
    }

    method GetWithAddressCheck(addr: string, now: int) returns (r: Option<CacheEntry>)
      modifies this
      ensures var found := Lookup(old(cache), addr, now);
              r == if found.Some? && found.value.identity.Some? && found.value.identity.value.serverAddress != addr
                   then None else found
      ensures cache == if r.None? then old(cache) - {addr} else old(cache)
    {
      var cached := Get(addr, now);
      if cached.None? {
        return None;
      }
      if cached.value.identity.Some? && cached.value.identity.value.serverAddress != addr {
        cache := cache - {addr};
        return None;
      }
      return cached;
    }

    method Set(addr: string, identity: Identity, now: int)
      modifies this
      ensures cache == old(cache)[addr := CacheEntry(Some(identity), identity.publicKey, if ttl > 0 then Some(now + ttl) else None)]
    {
      var expires := None;
      if ttl > 0 {
        expires := Some(now + ttl);
      }
      cache := cache[addr := CacheEntry(Some(identity), identity.publicKey, expires)];
    }

    method SetPublicKey(addr: string, publicKey: seq<byte>, now: int)
      modifies this
      ensures cache == old(cache)[addr := CacheEntry(None, publicKey, if ttl > 0 then Some(now + ttl) else None)]
    {
      var expires := None;
      if ttl > 0 {
        expires := Some(now + ttl);
      }
      cache := cache[addr := CacheEntry(None, publicKey, expires)];
    }

    method Clear()
      modifies this
      ensures cache == map[]
    {
      cache := map[];
    }

    method Cleanup(now: int)
      modifies this
      ensures cache == Fresh(old(cache), now)
      ensures forall a | a in old(cache) ::
                a in cache <==> old(cache)[a].expiresAt.None? || now <= old(cache)[a].expiresAt.value
    {
      var todo := cache.Keys;
      while todo != {}
        invariant todo <= cache.Keys <= old(cache).Keys
        invariant forall a | a in cache :: cache[a] == old(cache)[a]
        invariant forall a | a in cache :: a in todo || !Stale(cache[a], now)
        invariant forall a | a in old(cache) && a !in cache :: Stale(old(cache)[a], now)
        decreases todo
      {
        var addr :| addr in todo;
        todo := todo - {addr};
        if cache[addr].expiresAt.Some? && now > cache[addr].expiresAt.value {
          cache := cache - {addr};
        }
      }
    }
  }

  function Fresh(m: Cache, now: int): Cache {
    map a | a in m && !Stale(m[a], now) :: m[a]
  }

  // Sequential use: the cache against a map that never deletes what has expired.

  datatype Op =
    | SetAt(addr: string, entry: CacheEntry, now: int)
    | GetAt(addr: string, now: int)
    | GetCheckedAt(addr: string, now: int)
    | CleanupAt(now: int)
    | ClearAt(now: int)

  /** The cache after an operation and what the operation answered, as the methods do it. */
  function CacheStep(m: Cache, op: Op): (Cache, Option<CacheEntry>) {
    match op
    case SetAt(addr, entry, _) => (m[addr := entry], None)
    case GetAt(addr, now) =>
      var r := Lookup(m, addr, now);
      (if r.None? then m - {addr} else m, r)
    case GetCheckedAt(addr, now) =>
      var r := Lookup(m, addr, now);
      if r.None? || Misfiled(addr, r.value) then (m - {addr}, None) else (m, r)
    case CleanupAt(now) => (Fresh(m, now), None)
    case ClearAt(_) => (map[], None)
  }

  /** The plain timed map: reading does not change it and there is nothing to clean up. */
  function TimedStep(m: Cache, op: Op): (Cache, Option<CacheEntry>) {
    match op
    case SetAt(addr, entry, _) => (m[addr := entry], None)
    case GetAt(addr, now) => (m, Lookup(m, addr, now))
    case GetCheckedAt(addr, now) =>
      var r := Lookup(m, addr, now);
      if r.Some? && Misfiled(addr, r.value) then (m - {addr}, None) else (m, r)
    case CleanupAt(_) => (m, None)
    case ClearAt(_) => (map[], None)
  }

  /** From time `now` on the two maps cannot be told apart. */
  predicate Refines(cache: Cache, timed: Cache, now: int) {
    && (forall a | a in cache :: a in timed && cache[a] == timed[a])
    && (forall a | a in timed && a !in cache :: Stale(timed[a], now))
  }

  lemma StepRefines(cache: Cache, timed: Cache, now: int, op: Op)
    requires Refines(cache, timed, now) && now <= op.now
    ensures CacheStep(cache, op).1 == TimedStep(timed, op).1
    ensures Refines(CacheStep(cache, op).0, TimedStep(timed, op).0, op.now)
  {
  }

  function CacheRun(m: Cache, ops: seq<Op>): seq<Option<CacheEntry>>
    decreases |ops|
  {
    if ops == [] then [] else [CacheStep(m, ops[0]).1] + CacheRun(CacheStep(m, ops[0]).0, ops[1..])
  }

  function TimedRun(m: Cache, ops: seq<Op>): seq<Option<CacheEntry>>
    decreases |ops|
  {
    if ops == [] then [] else [TimedStep(m, ops[0]).1] + TimedRun(TimedStep(m, ops[0]).0, ops[1..])
  }

  predicate ClockRuns(ops: seq<Op>, start: int) {
    ops == [] || (start <= ops[0].now && ClockRuns(ops[1..], ops[0].now))
  }

  /** Every answer over every sequence of operations under a clock that does not go back. */
  lemma {:induction false} CacheRefinesTimedMap(cache: Cache, timed: Cache, now: int, ops: seq<Op>)
    requires Refines(cache, timed, now) && ClockRuns(ops, now)
    ensures CacheRun(cache, ops) == TimedRun(timed, ops)
    decreases |ops|
  {
    hide CacheStep, TimedStep, Refines;
    if ops != [] {
      StepRefines(cache, timed, now, ops[0]);
      CacheRefinesTimedMap(CacheStep(cache, ops[0]).0, TimedStep(timed, ops[0]).0, ops[0].now, ops[1..]);
    }
  }

  /** No full identity is misfiled; then the address check never changes an answer. */
  predicate WellFiled(m: Cache) {
    forall a | a in m :: !Misfiled(a, m[a])
  }

  lemma AddressCheckIdle(m: Cache, addr: string, now: int)
    requires WellFiled(m)
    ensures CacheStep(m, GetCheckedAt(addr, now)) == CacheStep(m, GetAt(addr, now))
    ensures WellFiled(CacheStep(m, GetAt(addr, now)).0)
  {
  }

  // Concurrent use: both reads give up their lock before they delete, so others may come between.

  datatype Event =
    | Stores(addr: string, entry: CacheEntry)
    | Reads(addr: string, now: int, checked: bool) // under the read lock: a hit, a miss, or a decision to delete
    | Deletes(addr: string) // the delayed deletion, under the write lock
    | Cleans(now: int)
    | Clears

  /** The cache, the last thing set under each address, and the deletions decided on but not carried out. */
  datatype Shared = Shared(cache: Cache, timed: Cache, pending: multiset<string>)

  const EMPTY: Shared := Shared(map[], map[], multiset{})

  /** A delayed deletion happens only after a read decided on one. */
  predicate Possible(s: Shared, e: Event) {
    e.Deletes? ==> e.addr in s.pending
  }

  /** An expired entry, or one the address check turns down. */
  predicate Rejected(addr: string, e: CacheEntry, now: int, checked: bool) {
    Stale(e, now) || (checked && Misfiled(addr, e))
  }

  function Happens(s: Shared, e: Event): Shared {
    match e
    case Stores(addr, entry) => s.(cache := s.cache[addr := entry], timed := s.timed[addr := entry])
    case Reads(addr, now, checked) =>
      if addr in s.cache && Rejected(addr, s.cache[addr], now, checked)
      then s.(pending := s.pending + multiset{addr}) else s
    case Deletes(addr) => s.(cache := s.cache - {addr}, pending := s.pending - multiset{addr})
    case Cleans(now) => s.(cache := Fresh(s.cache, now))
    case Clears => Shared(map[], map[], s.pending)
  }

  function Reached(events: seq<Event>): Shared {
    if events == [] then EMPTY else Happens(Reached(events[..|events| - 1]), events[|events| - 1])
  }

  predicate Interleaving(events: seq<Event>) {
    events != [] ==>
      var before, e := events[..|events| - 1], events[|events| - 1];
      Interleaving(before) && Possible(Reached(before), e)
  }

  /** No clock reading in the events is later than `now`. */
  predicate Until(events: seq<Event>, now: int) {
    forall e | e in events && (e.Cleans? || e.Reads?) :: e.now <= now
  }

  /** What a read with address check answers. */
  function CheckedLookup(m: Cache, addr: string, now: int): Option<CacheEntry> {
    if addr in m && !Rejected(addr, m[addr], now, true) then Some(m[addr]) else None
  }

  /** In every interleaving a hit is the last thing set, unexpired. */
  lemma {:induction false} HitsAreCorrect(events: seq<Event>, addr: string, now: int)
    ensures var s := Reached(events);
            && (forall a | a in s.cache :: a in s.timed && s.cache[a] == s.timed[a])
            && (Lookup(s.cache, addr, now).Some? ==> Lookup(s.cache, addr, now) == Lookup(s.timed, addr, now))
            && (CheckedLookup(s.cache, addr, now).Some? ==> CheckedLookup(s.cache, addr, now) == CheckedLookup(s.timed, addr, now))
  {
    hide Happens;
    if events != [] {
      var k := |events| - 1;
      HitsAreCorrect(events[..k], addr, now);
      StaysBelowTimed(Reached(events[..k]), events[k]);
    }
  }

  lemma StaysBelowTimed(s: Shared, e: Event)
    requires forall a | a in s.cache :: a in s.timed && s.cache[a] == s.timed[a]
    ensures var s' := Happens(s, e); forall a | a in s'.cache :: a in s'.timed && s'.cache[a] == s'.timed[a]
  {
  }

  /** Nothing is set under an address for which a deletion is outstanding. */
  predicate Guarded(events: seq<Event>) {
    events != [] ==>
      var before, e := events[..|events| - 1], events[|events| - 1];
      Guarded(before) && (e.Stores? ==> e.addr !in Reached(before).pending)
  }

  /** What is gone, or about to go, deserves it. */
  predicate OnlyRejectedGo(s: Shared, now: int) {
    forall a | a in s.timed && (a !in s.cache || a in s.pending) :: Rejected(a, s.timed[a], now, true)
  }

  lemma {:induction false} GuardedKeepsAll(events: seq<Event>, now: int)
    requires Interleaving(events) && Guarded(events) && Until(events, now)
    ensures OnlyRejectedGo(Reached(events), now)
  {
    hide OnlyRejectedGo, Happens, CheckedLookup, Lookup;
    if events == [] {
      assert OnlyRejectedGo(EMPTY, now) by { NothingGone(now); }
    } else {
      var k := |events| - 1;
      assert forall e | e in events[..k] :: e in events;
      GuardedKeepsAll(events[..k], now);
      HitsAreCorrect(events[..k], "", now);
      assert events[k] in events;
      OneGuardedEvent(Reached(events[..k]), events[k], now);
    }
  }

  lemma NothingGone(now: int)
    ensures OnlyRejectedGo(EMPTY, now)
  {
  }

  lemma OneGuardedEvent(s: Shared, e: Event, now: int)
    requires OnlyRejectedGo(s, now) && (forall a | a in s.cache :: a in s.timed && s.cache[a] == s.timed[a])
    requires Possible(s, e) && (e.Stores? ==> e.addr !in s.pending) && (e.Cleans? || e.Reads? ==> e.now <= now)
    ensures OnlyRejectedGo(Happens(s, e), now)
  {
    var s' := Happens(s, e);
    forall a | a in s'.timed && (a !in s'.cache || a in s'.pending)
      ensures Rejected(a, s'.timed[a], now, true)
    {
      if e.Reads? && a == e.addr && a in s.cache {
        assert s.timed[a] == s.cache[a];
      }
    }
  }

  /**
   As long as nothing is set while a deletion for it is outstanding, every answer is the one of
   the plain timed map, misfiled entries apart, which a read with address check never gives.
   */
  lemma ExactWhenGuarded(events: seq<Event>, addr: string, now: int)
    requires Interleaving(events) && Guarded(events) && Until(events, now)
    ensures var s := Reached(events);
            && CheckedLookup(s.cache, addr, now) == CheckedLookup(s.timed, addr, now)
            && (WellFiled(s.timed) ==> Lookup(s.cache, addr, now) == Lookup(s.timed, addr, now))
  {
    GuardedKeepsAll(events, now);
    HitsAreCorrect(events, addr, now);
  }

  // One store, seen from the moment it happens.

  /** What may follow a store: anything up to `now` that does not replace what was stored. */
  ghost predicate Follows(events: seq<Event>, more: seq<Event>, addr: string, now: int) {
    && Interleaving(events + more) && Until(more, now)
    && forall e | e in more :: !e.Clears? && !(e.Stores? && e.addr == addr)
  }

  predicate Safe(s: Shared, addr: string, e: CacheEntry) {
    addr in s.cache && s.cache[addr] == e && addr !in s.pending
  }

  lemma SafeStep(s: Shared, event: Event, addr: string, e: CacheEntry, now: int)
    requires Safe(s, addr, e) && !Rejected(addr, e, now, true)
    requires Possible(s, event) && !event.Clears? && !(event.Stores? && event.addr == addr)
    requires event.Cleans? || event.Reads? ==> event.now <= now
    ensures Safe(Happens(s, event), addr, e)
  {
  }

  lemma FollowsPrefix(events: seq<Event>, more: seq<Event>, addr: string, now: int)
    requires Follows(events, more, addr, now) && more != []
    ensures Follows(events, more[..|more| - 1], addr, now)
    ensures var k := |more| - 1;
            && Reached(events + more) == Happens(Reached(events + more[..k]), more[k])
            && Possible(Reached(events + more[..k]), more[k])
            && !more[k].Clears? && !(more[k].Stores? && more[k].addr == addr)
            && (more[k].Cleans? || more[k].Reads? ==> more[k].now <= now)
  {
    hide Possible, Happens;
    var k := |more| - 1;
    LastOf(events, more);
    assert more[k] in more && forall e | e in more[..k] :: e in more;
  }

  lemma LastOf(events: seq<Event>, more: seq<Event>)
    requires more != []
    ensures var all, k := events + more, |more| - 1;
            all[..|all| - 1] == events + more[..k] && all[|all| - 1] == more[k]
  {
  }

  lemma {:induction false} UnthreatenedStays(events: seq<Event>, more: seq<Event>, addr: string, e: CacheEntry, now: int)
    requires Follows(events, more, addr, now) && !Rejected(addr, e, now, true)
    requires Safe(Reached(events), addr, e)
    ensures Safe(Reached(events + more), addr, e)
  {
    hide Follows, Safe, Rejected, Possible, Happens, Reached;
    if more == [] {
      assert events + more == events;
    } else {
      FollowsPrefix(events, more, addr, now);
      UnthreatenedStays(events, more[..|more| - 1], addr, e, now);
      SafeStep(Reached(events + more[..|more| - 1]), more[|more| - 1], addr, e, now);
    }
  }

  /**
   The guard, exactly: an entry stored good until `now` is answered until then, whatever else goes
   on, if and only if no deletion for its address is outstanding when it is stored.
   */
  lemma StoreIsSafeIffNothingPending(events: seq<Event>, addr: string, e: CacheEntry, now: int)
    requires Interleaving(events) && !Rejected(addr, e, now, true)
    ensures (forall more | Follows(events + [Stores(addr, e)], more, addr, now) ::
               CheckedLookup(Reached(events + [Stores(addr, e)] + more).cache, addr, now) == Some(e))
       <==> addr !in Reached(events).pending
  {
    hide Follows, Possible, Interleaving, Rejected, Lookup;
    var stored := events + [Stores(addr, e)];
    JustHappened(events, Stores(addr, e));
    if addr in Reached(events).pending {
      DeletionFollows(events, addr, e, now);
    } else {
      forall more | Follows(stored, more, addr, now)
        ensures CheckedLookup(Reached(stored + more).cache, addr, now) == Some(e)
      {
        UnthreatenedStays(stored, more, addr, e, now);
      }
    }
  }

  lemma JustHappened(events: seq<Event>, e: Event)
    ensures Reached(events + [e]) == Happens(Reached(events), e)
    ensures Interleaving(events + [e]) <==> Interleaving(events) && Possible(Reached(events), e)
  {
    hide Happens, Possible;
    assert (events + [e])[..|events|] == events;
  }

  lemma DeletionFollows(events: seq<Event>, addr: string, e: CacheEntry, now: int)
    requires Interleaving(events) && addr in Reached(events).pending
    ensures var stored := events + [Stores(addr, e)];
            Follows(stored, [Deletes(addr)], addr, now) && addr !in Reached(stored + [Deletes(addr)]).cache
  {
    var stored := events + [Stores(addr, e)];
    JustHappened(events, Stores(addr, e));
    JustHappened(stored, Deletes(addr));
  }

  /** It does happen: a store between a read and its deletion is undone. */
  lemma FreshEntryCanBeLost(addr: string, e: CacheEntry, e': CacheEntry)
    requires e.expiresAt == Some(5) && e'.expiresAt == Some(15)
    ensures var events := [Stores(addr, e), Reads(addr, 10, false), Stores(addr, e'), Deletes(addr)];
            Interleaving(events)
            && Lookup(Reached(events).cache, addr, 11) == None && Lookup(Reached(events).timed, addr, 11) == Some(e')
  {
    hide Reached, Interleaving;
    var events1 := [] + [Stores(addr, e)];
    var events2 := events1 + [Reads(addr, 10, false)];
    var events3 := events2 + [Stores(addr, e')];
    assert Reached([]) == EMPTY && Interleaving([]) by { NothingYet(); }
    JustHappened([], Stores(addr, e));
    JustHappened(events1, Reads(addr, 10, false));
    JustHappened(events2, Stores(addr, e'));
    JustHappened(events3, Deletes(addr));
    assert events3 + [Deletes(addr)] == [Stores(addr, e), Reads(addr, 10, false), Stores(addr, e'), Deletes(addr)];
  }

  lemma NothingYet()
    ensures Reached([]) == EMPTY && Interleaving([])
  {
  }
}
