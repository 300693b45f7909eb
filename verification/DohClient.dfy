/**
  The DoH client of offveil-core/internal/dns/doh_cache.go as the program updates it: each method is
  one region under queriesMu and is proved to be one step of the query table, so that every run of
  the client has the properties proved of runs of the table.
 */
module DohClient {
  import opened Options
  import opened Poison
  import opened DohTtl
  import opened DohCache

  /** One piece of shared work; callers and the table hold references to it. */
  class Pending {
    const id: nat
    const key: Key
    const generation: nat
    var waiters: int
    var reply: Option<Reply>
    var cause: Cause

    constructor (id: nat, key: Key, generation: nat)
      ensures this.id == id && Value() == Flight(key, generation, 0, None, Running)
    {
      this.id, this.key, this.generation := id, key, generation;
      waiters, reply, cause := 0, None, Running;
    }

    function Value(): Flight
      reads this
    {
      Flight(key, generation, waiters, reply, cause)
    }

    /** The context's first cancellation is the one that counts. */
    method Cancel(why: Cause)
      modifies this`cause
      ensures Value() == Cancelled(old(Value()), why)
    {
      if cause == Running {
        cause := why;
      }
    }
  }

  class Client {
    const poison: PoisonSet
    var cache: map<Key, Entry>
    var flights: map<Key, Pending>
    var generation: nat
    var next: nat
    ghost var all: map<nat, Pending>

    /** The objects of this client, taken together, are the table s; the callers are its surroundings. */
    ghost predicate Shows(s: State)
      reads this, all.Values
    {
      && poison == s.poison && OnlyIPv4(poison)
      && cache == s.cache && generation == s.generation && next == s.next
      && Works(s.all) && Tabled(s.flights) && forall f :: f in all ==> f < next
    }

    ghost predicate Works(work: map<nat, Flight>)
      reads this`all, all.Values
    {
      all.Keys == work.Keys && forall f :: f in all ==> all[f].id == f && all[f].Value() == work[f]
    }

    ghost predicate Tabled(table: map<Key, nat>)
      reads this`all, this`flights
    {
      flights.Keys == table.Keys && forall k :: k in flights ==> Knows(flights[k]) && flights[k].id == table[k]
    }

    ghost predicate Knows(f: Pending)
      reads this`all
    {
      f.id in all && all[f.id] == f
    }

    constructor (p: PoisonSet)
      requires OnlyIPv4(p)
      ensures Shows(Initial(p))
    {
      poison, cache, flights, generation, next, all := p, map[], map[], 0, 0, map[];
    }

    /** A fresh cached answer is copied, aged and returned without touching the table. */
    method Lookup(ghost s: State, c: nat, key: Key, id: nat, now: nat) returns (hit: Option<Answer>)
      requires Shows(s)
      modifies this`cache
      ensures hit.Some? <==> !key.plain && key in s.cache && now < s.cache[key].expires
      ensures hit.Some? ==> Shows(HitStep(s, c, key, id, now)) && HitStep(s, c, key, id, now).callers[c].phase == Gone(hit.value)
      ensures hit.None? ==> Shows(s.(cache := if key.plain then s.cache else s.cache - {key}))
    {
      if !key.plain && key in cache {
        var cached := cache[key];
        if now < cached.expires {
          return Some(FromCache(Hit(cached.response, cached.stored, now, id), cached.endpoint));
        }
        cache := cache - {key};
      }
      assert !key.plain ==> cache == s.cache - {key};
      return None;
    }

    method Start(ghost s: State, key: Key) returns (flight: Pending)
      requires Shows(s)
      modifies this`flights, this`next, this`all
      ensures fresh(flight) && flight.id == s.next && Knows(flight) && Shows(Started(s, key))
    {
      flight := new Pending(next, key, generation);
      ghost var was, table := all, flights;
      flights := flights[key := flight];
      all := all[next := flight];
      next := next + 1;
      AddedWork(s.all, was, flight);
      AddedKey(s.flights, table, was, key, flight);
    }

    lemma AddedKey(table: map<Key, nat>, wasFlights: map<Key, Pending>, was: map<nat, Pending>, key: Key, flight: Pending)
      requires wasFlights.Keys == table.Keys && flights == wasFlights[key := flight] && all == was[flight.id := flight] && flight.id !in was
      requires forall k :: k in wasFlights ==> wasFlights[k].id in was && was[wasFlights[k].id] == wasFlights[k] && wasFlights[k].id == table[k]
      ensures Tabled(table[key := flight.id])
    {
    }

    lemma AddedWork(work: map<nat, Flight>, was: map<nat, Pending>, flight: Pending)
      requires was.Keys == work.Keys && flight.id !in was && all == was[flight.id := flight]
      requires forall f :: f in was ==> was[f].id == f && was[f].Value() == work[f]
      ensures Works(work[flight.id := flight.Value()])
    {
    }

    method AddWaiters(ghost s: State, flight: Pending, n: int)
      requires Shows(s) && Knows(flight)
      modifies flight`waiters
      ensures Shows(Waiters(s, flight.id, n)) && flight.waiters == s.all[flight.id].waiters + n
    {
      flight.waiters := flight.waiters + n;
    }

    /** Finds the flight of a key, or starts one, and counts one more waiter. */
    method Join(ghost s: State, c: nat, key: Key, id: nat, now: nat) returns (flight: Pending)
      requires Shows(s.(cache := if key.plain then s.cache else s.cache - {key}))
      modifies this`flights, this`next, this`all, all.Values
      ensures key in s.flights ==> s.flights[key] in s.all
      ensures Shows(MissStep(s, c, key, id, now)) && Knows(flight)
      ensures MissStep(s, c, key, id, now).callers[c].flight == flight.id
    {
      ghost var t := s.(cache := if key.plain then s.cache else s.cache - {key});
      if key in flights {
        flight := flights[key];
      } else {
        flight := Start(t, key);
        t := Started(t, key);
      }
      AddWaiters(t, flight, 1);
      MissParts(s, c, key, id, now);
      ShownAlike(Waiters(t, flight.id, 1), MissStep(s, c, key, id, now));
    }

    /** The callers are not part of what the client holds. */
    lemma ShownAlike(s: State, t: State)
      requires Shows(s) && t == s.(callers := t.callers)
      ensures Shows(t)
    {
    }

    /** The critical section of exchangeShared: a hit, or a place among the waiters of a flight. */
    method Enter(ghost s: State, c: nat, key: Key, id: nat, now: nat) returns (hit: Option<Answer>, flight: Pending?)
      requires Shows(s) && Enabled(s, DohCache.Enter(c, key, id, now))
      modifies this, all.Values
      ensures var t := Apply(s, DohCache.Enter(c, key, id, now));
              && Shows(t) && c in t.callers
              && (hit.Some? <==> flight == null) && (hit.Some? ==> t.callers[c].phase == Gone(hit.value))
              && (flight != null ==> Knows(flight) && t.callers[c].phase == Waiting && t.callers[c].flight == flight.id)
    {
      flight := null;
      hit := Lookup(s, c, key, id, now);
      if hit.None? {
        flight := Join(s, c, key, id, now);
      }
    }

    /** What a caller takes from a finished flight: a copy under its own identifier. */
    method Receive(ghost s: State, c: nat, id: nat, flight: Pending) returns (a: Answer)
      requires Shows(s) && Knows(flight) && Enabled(s, Deliver(c)) && s.callers[c].flight == flight.id && s.callers[c].id == id
      ensures Apply(s, Deliver(c)).callers[c].phase == Leaving(a)
      ensures flight.reply.Some? && a.FromFlight? && a.endpoint == flight.reply.value.endpoint && a.failed == flight.reply.value.failed
      ensures a.message.Some? <==> flight.reply.value.response.Some?
      ensures a.message.Some? ==> a.message.value.id == id && a.message.value == flight.reply.value.response.value.(id := id)
    {
      var reply := flight.reply.value;
      if reply.response.None? {
        return FromFlight(None, reply.endpoint, reply.failed);
      }
      var out := reply.response.value.(id := id);
      return FromFlight(Some(out), reply.endpoint, reply.failed);
    }

    /** The sweep before an insertion: a zero time marks that no live entry has been seen yet. */
    method MakeRoom(now: nat) returns (victim: Option<Key>)
      modifies this`cache
      ensures GoodVictim(Live(old(cache), now), victim)
      ensures cache == Room(Live(old(cache), now), victim)
    {
      ghost var was := cache;
      var keys := cache.Keys;
      var oldestKey: Option<Key> := None;
      var oldest := 0;
      while keys != {}
        invariant keys <= was.Keys
        invariant cache == map k | k in was && (k in keys || now < was[k].expires) :: was[k]
        invariant oldest == 0 <==> oldestKey.None?
        invariant oldestKey.None? ==> forall k :: k in was && k !in keys ==> !(now < was[k].expires)
        invariant oldestKey.Some? ==> NearestOf(was, keys, now, oldestKey.value) && was[oldestKey.value].expires == oldest
        decreases keys
      {
        var k :| k in keys;
        keys := keys - {k};
        if !(now < cache[k].expires) {
          cache := cache - {k};
          continue;
        }
        if oldest == 0 || cache[k].expires < oldest {
          oldestKey, oldest := Some(k), cache[k].expires;
        }
      }
      assert cache == Live(was, now);
      victim := None;
      if |cache| >= CAPACITY {
        NotEmpty(cache);
        victim := oldestKey;
        cache := cache - {oldestKey.value};
      }
    }

    /** A reply that is a clean answer of the current network enters the cache. */
    method Store(ghost s: State, flight: Pending, reply: Reply) returns (victim: Option<Key>)
      requires Shows(s) && Knows(flight) && |flight.key.query.question| == 1
      modifies this`cache
      ensures Shows(s.(cache := Filled(s, flight.id, reply, victim)))
      ensures StoreTtl(s, s.all[flight.id], reply) > 0 ==> GoodVictim(Live(s.cache, reply.at), victim)
    {
      victim := None;
      if !flight.key.plain && !reply.failed && flight.cause == Running && flight.generation == generation {
        var ttl := CacheableTtlLoop(flight.key.query, reply.response, poison);
        if ttl > 0 {
          victim := MakeRoom(reply.at);
          cache := cache[flight.key := Entry(reply.response.value, reply.endpoint, reply.at, reply.at + ttl * SECOND, flight.id)];
        }
      }
    }

    /** Forgets a key only while it still leads to this very flight. */
    method Forget(ghost s: State, flight: Pending)
      requires Shows(s) && Knows(flight)
      modifies this`flights
      ensures Shows(Forgotten(s, flight.id))
    {
      if flight.key in flights && flights[flight.key] == flight {
        flights := flights - {flight.key};
      }
    }

    method CancelFlight(ghost s: State, flight: Pending, why: Cause)
      requires Shows(s) && Knows(flight)
      modifies flight`cause
      ensures Shows(s.(all := s.all[flight.id := Cancelled(s.all[flight.id], why)]))
    {
      flight.Cancel(why);
    }

    method SetReply(ghost s: State, flight: Pending, reply: Reply)
      requires Shows(s) && Knows(flight)
      modifies flight`reply
      ensures Shows(s.(all := s.all[flight.id := s.all[flight.id].(reply := Some(reply))]))
    {
      flight.reply := Some(reply);
    }

    /** The end of resolveFlight: publish the reply, leave the table, and store what may be stored. */
    method Resolve(ghost s: State, flight: Pending, response: Option<Msg>, endpoint: string, failed: bool, now: nat)
      returns (victim: Option<Key>)
      requires Shows(s) && Knows(flight) && Unfinished(s, flight.id) && |flight.key.query.question| == 1
      modifies this`cache, this`flights, flight`reply
      ensures flight.id in s.all && Shows(ResolveStep(s, flight.id, Reply(response, endpoint, failed, now), victim))
      ensures StoreTtl(s, s.all[flight.id], Reply(response, endpoint, failed, now)) > 0 ==> GoodVictim(Live(s.cache, now), victim)
    {
      var reply := Reply(response, endpoint, failed, now);
      SetReply(s, flight, reply);
      ghost var t := s.(all := s.all[flight.id := s.all[flight.id].(reply := Some(reply))]);
      Forget(t, flight);
      t := Forgotten(t, flight.id);
      victim := Store(t, flight, reply);
      ResolveParts(s, flight.id, reply, victim);
    }

    method ReleaseFlight(ghost s: State, c: nat, flight: Pending)
      requires Shows(s) && Knows(flight) && Leaves(s, c) && s.callers[c].flight == flight.id
      modifies this`flights, flight`waiters, flight`cause
      ensures Shows(ReleaseStep(s, c))
    {
      AddWaiters(s, flight, -1);
      ghost var t := Waiters(s, flight.id, -1);
      if flight.waiters == 0 {
        Forget(t, flight);
        CancelFlight(Forgotten(t, flight.id), flight, Released);
        LastRelease(s, c);
        ShownAlike(Cancels(Forgotten(t, flight.id), flight.id), ReleaseStep(s, c));
      } else {
        ShownAlike(t, ReleaseStep(s, c));
      }
    }

    method ResetCache(ghost s: State)
      requires Shows(s)
      modifies this`generation, this`cache, this`flights
      ensures Shows(Apply(s, Reset))
    {
      generation := generation + 1;
      cache := map[];
      flights := map[];
    }

    method CloseOne(ghost s: State, ghost keys: set<Key>, k: Key)
      requires Shows(CloseSome(s, keys)) && Mapped(s) && k in s.flights && k in keys
      modifies all.Values
      ensures Shows(CloseSome(s, keys - {k}))
    {
      assert MappedFlight(s, k);
      CancelFlight(CloseSome(s, keys), flights[k], Closed);
      OneMoreClosed(s, keys, k);
    }

    /** The first half of Close; the second is ResetCache, after the lock was free in between. */
    method CancelAll(ghost s: State)
      requires Shows(s) && Mapped(s)
      modifies all.Values
      ensures Shows(CloseStep(s))
    {
      var keys := flights.Keys;
      NoneClosed(s);
      while keys != {}
        invariant keys <= s.flights.Keys && Shows(CloseSome(s, keys))
        decreases keys
      {
        var k :| k in keys;
        CloseOne(s, keys, k);
        keys := keys - {k};
      }
      AllClosed(s);
    }
  }

  /** The table after every key outside `keys` has been visited by Close. */
  function CloseSome(s: State, keys: set<Key>): State {
    s.(all := map f | f in s.all :: if Visited(s, f, keys) then Cancelled(s.all[f], Closed) else s.all[f])
  }

  lemma NoneClosed(s: State)
    ensures CloseSome(s, s.flights.Keys) == s
  {
  }

  lemma AllClosed(s: State)
    ensures CloseSome(s, {}) == CloseStep(s)
  {
    assert CloseSome(s, {}).all == CloseStep(s).all;
  }

  lemma OneMoreClosed(s: State, keys: set<Key>, k: Key)
    requires MappedFlight(s, k) && k in keys
    ensures var t, f := CloseSome(s, keys), s.flights[k];
            t.(all := t.all[f := Cancelled(t.all[f], Closed)]) == CloseSome(s, keys - {k})
  {
    var t, f := CloseSome(s, keys), s.flights[k];
    assert t.all[f := Cancelled(t.all[f], Closed)] == CloseSome(s, keys - {k}).all;
  }

  function Started(s: State, key: Key): State {
    s.(flights := s.flights[key := s.next], next := s.next + 1, all := s.all[s.next := Flight(key, s.generation, 0, None, Running)])
  }

  function Waiters(s: State, f: nat, n: int): State
    requires f in s.all
  {
    s.(all := s.all[f := s.all[f].(waiters := s.all[f].waiters + n)])
  }

  /** A miss is: drop the stale entry, start a flight if there is none, add a waiter. */
  lemma MissParts(s: State, c: nat, key: Key, id: nat, now: nat)
    requires key in s.flights ==> s.flights[key] in s.all
    ensures var t := s.(cache := if key.plain then s.cache else s.cache - {key});
            var u := if key in s.flights then Waiters(t, s.flights[key], 1) else Waiters(Started(t, key), s.next, 1);
            MissStep(s, c, key, id, now) == u.(callers := MissStep(s, c, key, id, now).callers)
  {
    if key in s.flights {
      assert s.flights[key := s.flights[key]] == s.flights;
    } else {
      var f := Flight(key, s.generation, 0, None, Running);
      assert s.all[s.next := f][s.next := Joined(f)] == s.all[s.next := Joined(f)];
    }
  }

  /** Publishing the reply and forgetting the key do not change what may be stored. */
  lemma ResolveParts(s: State, f: nat, reply: Reply, victim: Option<Key>)
    requires f in s.all
    ensures var t := s.(all := s.all[f := s.all[f].(reply := Some(reply))], flights := Unmapped(s.flights, s.all[f].key, f));
            && StoreTtl(t, t.all[f], reply) == StoreTtl(s, s.all[f], reply)
            && t.(cache := Filled(t, f, reply, victim)) == ResolveStep(s, f, reply, victim)
  {
  }

  function Forgotten(s: State, f: nat): State
    requires f in s.all
  {
    s.(flights := Unmapped(s.flights, s.all[f].key, f))
  }

  function Cancels(s: State, f: nat): State
    requires f in s.all
  {
    s.(all := s.all[f := Cancelled(s.all[f], Released)])
  }

  /** After the last waiter the key is forgotten and the work cancelled. */
  lemma LastRelease(s: State, c: nat)
    requires Leaves(s, c) && s.all[s.callers[c].flight].waiters == 1
    ensures var f := s.callers[c].flight;
            ReleaseStep(s, c) == Cancels(Forgotten(Waiters(s, f, -1), f), f).(callers := ReleaseStep(s, c).callers)
  {
    var f := s.callers[c].flight;
    var a := s.all[f].(waiters := s.all[f].waiters - 1);
    assert s.all[f := a][f := Cancelled(a, Released)] == s.all[f := Cancelled(a, Released)];
  }

  predicate Visited(s: State, f: nat, keys: set<Key>) {
    f in s.all && s.all[f].key in s.flights && s.all[f].key !in keys && s.flights[s.all[f].key] == f
  }

  /** Among the live entries already seen, this one expires first. */
  ghost predicate NearestOf(was: map<Key, Entry>, keys: set<Key>, now: nat, k: Key) {
    && k in was && k !in keys && now < was[k].expires
    && forall x :: x in was && x !in keys && now < was[x].expires ==> was[k].expires <= was[x].expires
  }

  lemma NotEmpty(cache: map<Key, Entry>)
    requires |cache| > 0
    ensures exists k :: k in cache
  {
    var k :| k in cache.Keys;
  }
}
