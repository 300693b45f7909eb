/**
  The shared query table of offveil-core/internal/dns/doh_cache.go as a step system. Every region
  held under queriesMu is one step; callers, resolving goroutines, timeouts, network changes and
  Close interleave freely between steps. A flight is the reference-counted work of one question.
 */
module DohCache {
  import opened Options
  import opened NetAddr
  import opened Poison
  import opened DohTtl

  const CAPACITY: nat := 256

  /** The packed question with a zero identifier, behind the prefix that separates DoH from plain UDP. */
  datatype Key = Key(plain: bool, query: Msg)

  /** `origin` names the flight an entry came from; the program does not store it. */
  datatype Entry = Entry(response: Msg, endpoint: string, stored: nat, expires: nat, origin: nat)

  /** What ended a flight's context first. */
  datatype Cause = Running | Released | Closed | TimedOut

  datatype Reply = Reply(response: Option<Msg>, endpoint: string, failed: bool, at: nat)

  datatype Flight = Flight(key: Key, generation: nat, waiters: int, reply: Option<Reply>, cause: Cause)

  datatype Answer =
    | GaveUp
    | FromFlight(message: Option<Msg>, endpoint: string, failed: bool)
    | FromCache(hit: Msg, endpoint: string)

  /** A caller waits, then holds its answer until the deferred release, then is gone. */
  datatype Phase = Waiting | Leaving(answer: Answer) | Gone(answer: Answer)

  /** `flight` is the flight a caller joined, or the origin of the entry it hit. */
  datatype Caller = Caller(key: Key, id: nat, now: nat, entered: nat, flight: nat, phase: Phase)

  datatype State = State(
    poison: PoisonSet, cache: map<Key, Entry>, flights: map<Key, nat>, generation: nat,
    all: map<nat, Flight>, callers: map<nat, Caller>, next: nat)

  datatype Event =
    | Enter(c: nat, key: Key, id: nat, now: nat)
    | Timeout(f: nat)
    | Resolve(f: nat, reply: Reply, victim: Option<Key>)
    | Deliver(c: nat)
    | GiveUp(c: nat)
    | Release(c: nat)
    | Reset
    | CloseCancel

  // ------------------------------------------------------------------ the cache

  function Live(cache: map<Key, Entry>, now: nat): map<Key, Entry> {
    map k | k in cache && now < cache[k].expires :: cache[k]
  }

  /** Nothing is evicted below capacity; at capacity one entry with the nearest expiry goes. */
  predicate GoodVictim(live: map<Key, Entry>, victim: Option<Key>) {
    if |live| < CAPACITY then victim.None?
    else victim.Some? && victim.value in live && forall k :: k in live ==> live[victim.value].expires <= live[k].expires
  }

  function Room(live: map<Key, Entry>, victim: Option<Key>): map<Key, Entry> {
    if victim.Some? then live - {victim.value} else live
  }

  /** Seconds for which the reply of a flight may be stored now; zero means it is not. */
  function StoreTtl(s: State, f: Flight, reply: Reply): nat {
    if !f.key.plain && !reply.failed && f.cause == Running && f.generation == s.generation
    then CacheableTtl(f.key.query, reply.response, s.poison) else 0
  }

  // ------------------------------------------------------------------- the steps

  /** The questions that are shared: everything else goes upstream directly and touches no table. */
  predicate Shareable(q: Msg) {
    q.opcode == 0 && !q.response && |q.question| == 1 && !q.signed && q.id == 0
  }

  predicate Hits(s: State, key: Key, now: nat) {
    !key.plain && key in s.cache && now < s.cache[key].expires
  }

  predicate Unfinished(s: State, f: nat) { f in s.all && s.all[f].reply.None? }

  predicate Leaves(s: State, c: nat) {
    c in s.callers && s.callers[c].phase.Leaving? && s.callers[c].flight in s.all
  }

  predicate Enabled(s: State, e: Event) {
    match e
    case Enter(c, key, _, _) => c !in s.callers && Shareable(key.query) && (key in s.flights ==> s.flights[key] in s.all)
    case Timeout(f) => f in s.all
    case Resolve(f, reply, victim) =>
      Unfinished(s, f) && (StoreTtl(s, s.all[f], reply) > 0 ==> GoodVictim(Live(s.cache, reply.at), victim))
    case Deliver(c) =>
      c in s.callers && s.callers[c].phase.Waiting? && s.callers[c].flight in s.all && s.all[s.callers[c].flight].reply.Some?
    case GiveUp(c) => c in s.callers && s.callers[c].phase.Waiting?
    case Release(c) => Leaves(s, c)
    case Reset => true
    case CloseCancel => true
  }

  function HitStep(s: State, c: nat, key: Key, id: nat, now: nat): State
    requires key in s.cache
  {
    var e := s.cache[key];
    s.(callers := s.callers[c := Caller(key, id, now, s.generation, e.origin,
                                        Gone(FromCache(Hit(e.response, e.stored, now, id), e.endpoint)))])
  }

  function Joined(f: Flight): Flight { f.(waiters := f.waiters + 1) }

  function MissStep(s: State, c: nat, key: Key, id: nat, now: nat): State
    requires key in s.flights ==> s.flights[key] in s.all
  {
    var f := if key in s.flights then s.flights[key] else s.next;
    var flight := if key in s.flights then s.all[f] else Flight(key, s.generation, 0, None, Running);
    s.(cache := if key.plain then s.cache else s.cache - {key},
       flights := s.flights[key := f],
       all := s.all[f := Joined(flight)],
       callers := s.callers[c := Caller(key, id, now, s.generation, f, Waiting)],
       next := if key in s.flights then s.next else s.next + 1)
  }

  /** Forgets the key only while it still names this flight. */
  function Unmapped(flights: map<Key, nat>, key: Key, f: nat): map<Key, nat> {
    if key in flights && flights[key] == f then flights - {key} else flights
  }

  function Filled(s: State, f: nat, reply: Reply, victim: Option<Key>): map<Key, Entry>
    requires f in s.all
  {
    var ttl := StoreTtl(s, s.all[f], reply);
    if ttl == 0 || reply.response.None? then s.cache
    else Room(Live(s.cache, reply.at), victim)[s.all[f].key :=
           Entry(reply.response.value, reply.endpoint, reply.at, reply.at + ttl * SECOND, f)]
  }

  function ResolveStep(s: State, f: nat, reply: Reply, victim: Option<Key>): State
    requires f in s.all
  {
    s.(all := s.all[f := s.all[f].(reply := Some(reply))],
       flights := Unmapped(s.flights, s.all[f].key, f),
       cache := Filled(s, f, reply, victim))
  }

  function Delivered(reply: Reply, id: nat): Answer {
    match reply.response
    case None => FromFlight(None, reply.endpoint, reply.failed)
    case Some(m) => FromFlight(Some(m.(id := id)), reply.endpoint, reply.failed)
  }

  function Cancelled(f: Flight, cause: Cause): Flight { if f.cause == Running then f.(cause := cause) else f }

  function ReleaseStep(s: State, c: nat): State
    requires Leaves(s, c)
  {
    var f := s.callers[c].flight;
    var flight := s.all[f].(waiters := s.all[f].waiters - 1);
    var last := flight.waiters == 0;
    s.(callers := s.callers[c := s.callers[c].(phase := Gone(s.callers[c].phase.answer))],
       all := s.all[f := if last then Cancelled(flight, Released) else flight],
       flights := if last then Unmapped(s.flights, flight.key, f) else s.flights)
  }

  function CloseStep(s: State): State {
    s.(all := map f | f in s.all ::
                if s.all[f].key in s.flights && s.flights[s.all[f].key] == f then Cancelled(s.all[f], Closed) else s.all[f])
  }

  function Apply(s: State, e: Event): State
    requires Enabled(s, e)
  {
    match e
    case Enter(c, key, id, now) => if Hits(s, key, now) then HitStep(s, c, key, id, now) else MissStep(s, c, key, id, now)
    case Timeout(f) => s.(all := s.all[f := Cancelled(s.all[f], TimedOut)])
    case Resolve(f, reply, victim) => ResolveStep(s, f, reply, victim)
    case Deliver(c) =>
      var caller := s.callers[c];
      s.(callers := s.callers[c := caller.(phase := Leaving(Delivered(s.all[caller.flight].reply.value, caller.id)))])
    case GiveUp(c) => s.(callers := s.callers[c := s.callers[c].(phase := Leaving(Answer.GaveUp))])
    case Release(c) => ReleaseStep(s, c)
    case Reset => s.(generation := s.generation + 1, cache := map[], flights := map[])
    case CloseCancel => CloseStep(s)
  }

  // --------------------------------------------------------------- the invariant

  predicate Holds(caller: Caller, f: nat) { caller.flight == f && !caller.phase.Gone? }

  function Holders(callers: map<nat, Caller>, f: nat): set<nat> {
    set c | c in callers && Holds(callers[c], f)
  }

  /** A flight in the table is unfinished, of this generation, wanted, and its key is not cached. */
  predicate MappedFlight(s: State, k: Key) {
    && k in s.flights && s.flights[k] in s.all
    && var f := s.all[s.flights[k]];
       f.key == k && f.generation == s.generation && f.reply.None? && f.waiters >= 1 && k !in s.cache
  }

  ghost predicate Mapped(s: State) {
    forall k :: k in s.flights ==> MappedFlight(s, k)
  }

  /** Waiter counts are the unreleased callers; a wanted unfinished current flight can be found. */
  predicate SoundFlight(s: State, f: nat) {
    && f in s.all && f < s.next
    && var v := s.all[f];
       && v.generation <= s.generation && Shareable(v.key.query)
       && v.waiters == |Holders(s.callers, f)|
       && (v.cause == Released ==> v.waiters == 0)
       && (v.waiters == 0 && v.reply.None? ==> v.cause != Running)
       && (v.reply.None? && v.generation == s.generation && v.waiters >= 1 ==> v.key in s.flights && s.flights[v.key] == f)
  }

  ghost predicate Counted(s: State) {
    forall f :: f in s.all ==> SoundFlight(s, f)
  }

  /** The reply a flight may put in the cache, and what the entry then looks like. */
  predicate Fills(s: State, f: nat, m: Msg, at: nat, expires: int) {
    && f in s.all && !s.all[f].key.plain
    && s.all[f].reply.Some? && s.all[f].reply.value.response == Some(m) && s.all[f].reply.value.at == at
    && var ttl := CacheableTtl(s.all[f].key.query, Some(m), s.poison); ttl > 0 && expires == at + ttl * SECOND
  }

  predicate SoundEntry(s: State, k: Key) {
    && k in s.cache
    && var e := s.cache[k];
       && Fills(s, e.origin, e.response, e.stored, e.expires) && s.all[e.origin].key == k && s.all[e.origin].generation == s.generation
       && s.all[e.origin].reply.value.endpoint == e.endpoint
  }

  ghost predicate CacheSound(s: State) {
    && |s.cache| <= CAPACITY
    && forall k :: k in s.cache ==> SoundEntry(s, k)
  }

  /** What an answer is, in terms of the reply of the caller's flight. */
  predicate SoundAnswer(s: State, caller: Caller, a: Answer) {
    match a
    case GaveUp => true
    case FromFlight(_, _, _) =>
      caller.flight in s.all && s.all[caller.flight].reply.Some? && a == Delivered(s.all[caller.flight].reply.value, caller.id)
    case FromCache(hit, endpoint) =>
      && caller.flight in s.all && s.all[caller.flight].reply.Some? && s.all[caller.flight].reply.value.response.Some?
      && var r := s.all[caller.flight].reply.value;
         && Fills(s, caller.flight, r.response.value, r.at, r.at + CacheableTtl(s.all[caller.flight].key.query, r.response, s.poison) * SECOND)
         && caller.now < r.at + CacheableTtl(s.all[caller.flight].key.query, r.response, s.poison) * SECOND
         && hit == Hit(r.response.value, r.at, caller.now, caller.id) && endpoint == r.endpoint
  }

  predicate SoundCaller(s: State, c: nat) {
    && c in s.callers && s.callers[c].flight in s.all
    && s.callers[c].entered == s.all[s.callers[c].flight].generation && s.callers[c].key == s.all[s.callers[c].flight].key
    && (s.callers[c].phase.Waiting? || SoundAnswer(s, s.callers[c], s.callers[c].phase.answer))
  }

  ghost predicate CallersSound(s: State) {
    forall c :: c in s.callers ==> SoundCaller(s, c)
  }

  ghost predicate Inv(s: State) {
    Mapped(s) && Counted(s) && CacheSound(s) && CallersSound(s)
  }

  function Initial(p: PoisonSet): State { State(p, map[], map[], 0, map[], map[], 0) }

  lemma InitialInv(p: PoisonSet)
    ensures Inv(Initial(p))
  {
  }

  // ------------------------------------------------------- every step keeps it

  function One(b: bool): nat { if b then 1 else 0 }

  lemma SwapSize(a: set<nat>, b: set<nat>, c: nat)
    requires a - {c} == b - {c}
    ensures |a| + One(c in b) == |b| + One(c in a)
  {
    assert |a - {c}| == |a| - One(c in a);
    assert |b - {c}| == |b| - One(c in b);
  }

  lemma HoldersUpdate(callers: map<nat, Caller>, c: nat, caller: Caller, f: nat)
    ensures |Holders(callers[c := caller], f)| + One(c in callers && Holds(callers[c], f)) == |Holders(callers, f)| + One(Holds(caller, f))
  {
    SwapSize(Holders(callers[c := caller], f), Holders(callers, f), c);
  }

  /** Replies are final, so what was said about finished flights stays true. */
  ghost predicate Extends(s: State, t: State) {
    && t.poison == s.poison
    && forall f :: f in s.all ==>
         && f in t.all && t.all[f].key == s.all[f].key && t.all[f].generation == s.all[f].generation
         && (s.all[f].reply.Some? ==> t.all[f].reply == s.all[f].reply)
  }

  lemma MissExtends(s: State, c: nat, key: Key, id: nat, now: nat)
    requires Mapped(s) && Counted(s)
    ensures Extends(s, MissStep(s, c, key, id, now))
  {
    if key in s.flights {
      assert MappedFlight(s, key);
    }
    assert s.next in s.all ==> SoundFlight(s, s.next);
  }

  lemma ResolveExtends(s: State, f: nat, reply: Reply, victim: Option<Key>)
    requires Unfinished(s, f)
    ensures Extends(s, ResolveStep(s, f, reply, victim))
  {
  }

  lemma ReleaseExtends(s: State, c: nat)
    requires Leaves(s, c)
    ensures Extends(s, ReleaseStep(s, c))
  {
  }

  lemma StepExtends(s: State, e: Event)
    requires Mapped(s) && Counted(s) && Enabled(s, e)
    ensures Extends(s, Apply(s, e))
  {
    match e
    case Enter(c, key, id, now) =>
      if !Hits(s, key, now) {
        MissExtends(s, c, key, id, now);
      }
    case Resolve(f, reply, victim) => ResolveExtends(s, f, reply, victim);
    case Release(c) => ReleaseExtends(s, c);
    case _ =>
  }

  lemma CallerStays(s: State, t: State, c: nat)
    requires Extends(s, t) && SoundCaller(s, c) && c in t.callers && t.callers[c] == s.callers[c]
    ensures SoundCaller(t, c)
  {
  }

  lemma HitCaller(s: State, c: nat, key: Key, id: nat, now: nat)
    requires CacheSound(s) && c !in s.callers && Hits(s, key, now)
    ensures SoundCaller(HitStep(s, c, key, id, now), c)
  {
    assert SoundEntry(s, key);
  }

  lemma MissCaller(s: State, c: nat, key: Key, id: nat, now: nat)
    requires Mapped(s) && Counted(s) && c !in s.callers
    ensures SoundCaller(MissStep(s, c, key, id, now), c)
  {
    if key in s.flights {
      assert MappedFlight(s, key);
    }
  }

  lemma CallersKept(s: State, e: Event)
    requires Inv(s) && Enabled(s, e)
    ensures CallersSound(Apply(s, e))
  {
    var t := Apply(s, e);
    StepExtends(s, e);
    forall c | c in t.callers
      ensures SoundCaller(t, c)
    {
      if Moves(e, c) {
        NewPhase(s, e, c);
      } else {
        CallerStays(s, t, c);
      }
    }
  }

  predicate Moves(e: Event, c: nat) {
    (e.Enter? || e.Deliver? || e.GiveUp? || e.Release?) && e.c == c
  }

  lemma NewPhase(s: State, e: Event, c: nat)
    requires Mapped(s) && Counted(s) && CacheSound(s) && Enabled(s, e) && Moves(e, c)
    requires c in s.callers ==> SoundCaller(s, c)
    ensures SoundCaller(Apply(s, e), c)
  {
    match e
    case Enter(_, key, id, now) =>
      if Hits(s, key, now) {
        HitCaller(s, c, key, id, now);
      } else {
        MissCaller(s, c, key, id, now);
      }
    case Release(_) => ReleasedCaller(s, c);
    case _ =>
  }

  lemma ReleasedCaller(s: State, c: nat)
    requires Leaves(s, c) && SoundCaller(s, c)
    ensures SoundCaller(ReleaseStep(s, c), c)
  {
  }

  lemma LiveSmaller(cache: map<Key, Entry>, now: nat)
    ensures |Live(cache, now)| <= |cache|
  {
    var live := Live(cache, now);
    assert live.Keys <= cache.Keys;
    SubsetSize(live.Keys, cache.Keys);
  }

  lemma SubsetSize<T>(a: set<T>, b: set<T>)
    requires a <= b
    ensures |a| <= |b|
  {
    assert b == a + (b - a);
  }

  /** The bound of 256 entries: expired entries go first, then one makes room for the new one. */
  lemma RoomSize(cache: map<Key, Entry>, now: nat, victim: Option<Key>, key: Key, e: Entry)
    requires |cache| <= 256 && GoodVictim(Live(cache, now), victim)
    ensures |Room(Live(cache, now), victim)[key := e]| <= 256
  {
    var live := Live(cache, now);
    LiveSmaller(cache, now);
    var room := Room(live, victim);
    if victim.Some? {
      assert room.Keys == live.Keys - {victim.value};
    }
    assert room[key := e].Keys == room.Keys + {key};
  }

  lemma EntryStays(s: State, t: State, k: Key)
    requires Extends(s, t) && SoundEntry(s, k) && k in t.cache && t.cache[k] == s.cache[k] && t.generation == s.generation
    ensures SoundEntry(t, k)
  {
  }

  lemma StoredEntry(s: State, f: nat, reply: Reply, victim: Option<Key>)
    requires Unfinished(s, f) && StoreTtl(s, s.all[f], reply) > 0
    ensures SoundEntry(ResolveStep(s, f, reply, victim), s.all[f].key)
  {
  }

  lemma OlderEntry(s: State, f: nat, reply: Reply, victim: Option<Key>, k: Key)
    requires Unfinished(s, f) && k in ResolveStep(s, f, reply, victim).cache
    requires k != s.all[f].key || StoreTtl(s, s.all[f], reply) == 0
    ensures k in s.cache && ResolveStep(s, f, reply, victim).cache[k] == s.cache[k]
  {
  }

  lemma FilledSize(s: State, f: nat, reply: Reply, victim: Option<Key>)
    requires f in s.all && |s.cache| <= CAPACITY
    requires StoreTtl(s, s.all[f], reply) > 0 ==> GoodVictim(Live(s.cache, reply.at), victim)
    ensures |Filled(s, f, reply, victim)| <= CAPACITY
  {
    var ttl := StoreTtl(s, s.all[f], reply);
    if ttl > 0 && reply.response.Some? {
      RoomSize(s.cache, reply.at, victim, s.all[f].key,
               Entry(reply.response.value, reply.endpoint, reply.at, reply.at + ttl * SECOND, f));
    }
  }

  lemma ResolveCache(s: State, f: nat, reply: Reply, victim: Option<Key>)
    requires CacheSound(s) && Unfinished(s, f) && Extends(s, ResolveStep(s, f, reply, victim))
    requires StoreTtl(s, s.all[f], reply) > 0 && GoodVictim(Live(s.cache, reply.at), victim)
    ensures CacheSound(ResolveStep(s, f, reply, victim))
  {
    var t := ResolveStep(s, f, reply, victim);
    FilledSize(s, f, reply, victim);
    StoredEntry(s, f, reply, victim);
    forall k | k in t.cache
      ensures SoundEntry(t, k)
    {
      if k != s.all[f].key {
        OlderEntry(s, f, reply, victim, k);
        EntryStays(s, t, k);
      }
    }
  }

  lemma ShrunkCache(s: State, t: State)
    requires CacheSound(s) && Extends(s, t) && t.generation == s.generation
    requires forall k :: k in t.cache ==> k in s.cache && t.cache[k] == s.cache[k]
    ensures CacheSound(t)
  {
    assert t.cache.Keys <= s.cache.Keys;
    SubsetSize(t.cache.Keys, s.cache.Keys);
    forall k | k in t.cache
      ensures SoundEntry(t, k)
    {
      EntryStays(s, t, k);
    }
  }

  lemma CacheKept(s: State, e: Event)
    requires Mapped(s) && Counted(s) && CacheSound(s) && Enabled(s, e)
    ensures CacheSound(Apply(s, e))
  {
    StepExtends(s, e);
    if e.Resolve? && StoreTtl(s, s.all[e.f], e.reply) > 0 {
      ResolveCache(s, e.f, e.reply, e.victim);
    } else if !e.Reset? {
      ShrunkCache(s, Apply(s, e));
    }
  }

  lemma MissMapped(s: State, c: nat, key: Key, id: nat, now: nat)
    requires Mapped(s) && Counted(s) && CacheSound(s) && !Hits(s, key, now)
    ensures Mapped(MissStep(s, c, key, id, now))
  {
    var t := MissStep(s, c, key, id, now);
    assert key in s.cache ==> SoundEntry(s, key);
    forall k | k in t.flights
      ensures MappedFlight(t, k)
    {
      if k in s.flights {
        assert MappedFlight(s, k);
      }
    }
  }

  lemma ResolveMapped(s: State, f: nat, reply: Reply, victim: Option<Key>)
    requires Mapped(s) && Counted(s) && Unfinished(s, f)
    ensures Mapped(ResolveStep(s, f, reply, victim))
  {
    var t := ResolveStep(s, f, reply, victim);
    assert SoundFlight(s, f);
    forall k | k in t.flights
      ensures MappedFlight(t, k)
    {
      assert MappedFlight(s, k);
    }
  }

  lemma ReleaseMapped(s: State, c: nat)
    requires Mapped(s) && Counted(s) && Leaves(s, c)
    ensures Mapped(ReleaseStep(s, c))
  {
    var t := ReleaseStep(s, c);
    assert SoundFlight(s, s.callers[c].flight);
    forall k | k in t.flights
      ensures MappedFlight(t, k)
    {
      assert MappedFlight(s, k);
    }
  }

  lemma CloseMapped(s: State)
    requires Mapped(s)
    ensures Mapped(CloseStep(s))
  {
    MappedStays(s, CloseStep(s));
  }

  lemma TimeoutMapped(s: State, f: nat)
    requires Mapped(s) && f in s.all
    ensures Mapped(s.(all := s.all[f := Cancelled(s.all[f], TimedOut)]))
  {
    MappedStays(s, s.(all := s.all[f := Cancelled(s.all[f], TimedOut)]));
  }

  lemma PhaseMapped(s: State, callers: map<nat, Caller>)
    requires Mapped(s)
    ensures Mapped(s.(callers := callers))
  {
    MappedStays(s, s.(callers := callers));
  }

  lemma MappedKept(s: State, e: Event)
    requires Mapped(s) && Counted(s) && CacheSound(s) && Enabled(s, e)
    ensures Mapped(Apply(s, e))
  {
    match e
    case Enter(c, key, id, now) =>
      if Hits(s, key, now) {
        PhaseMapped(s, HitStep(s, c, key, id, now).callers);
      } else {
        MissMapped(s, c, key, id, now);
      }
    case Timeout(f) => TimeoutMapped(s, f);
    case Resolve(f, reply, victim) => ResolveMapped(s, f, reply, victim);
    case Deliver(c) => PhaseMapped(s, Apply(s, e).callers);
    case GiveUp(c) => PhaseMapped(s, Apply(s, e).callers);
    case Release(c) => ReleaseMapped(s, c);
    case Reset =>
    case CloseCancel => CloseMapped(s);
  }

  lemma MappedStays(s: State, t: State)
    requires Mapped(s) && t.flights == s.flights && t.generation == s.generation && t.cache == s.cache && Extends(s, t)
    requires forall f :: f in s.all ==> t.all[f].reply == s.all[f].reply && t.all[f].waiters == s.all[f].waiters
    ensures Mapped(t)
  {
    forall k | k in t.flights
      ensures MappedFlight(t, k)
    {
      assert MappedFlight(s, k);
    }
  }

  lemma MissCounted(s: State, c: nat, key: Key, id: nat, now: nat, f: nat)
    requires Mapped(s) && Counted(s) && CallersSound(s) && c !in s.callers && Shareable(key.query) && f in MissStep(s, c, key, id, now).all
    ensures SoundFlight(MissStep(s, c, key, id, now), f)
  {
    var t := MissStep(s, c, key, id, now);
    HoldersUpdate(s.callers, c, t.callers[c], f);
    if key in s.flights {
      assert MappedFlight(s, key);
    }
    if f in s.all {
      assert SoundFlight(s, f);
    } else {
      NoHolders(s, f);
    }
  }

  lemma HitCounted(s: State, c: nat, key: Key, id: nat, now: nat, f: nat)
    requires Counted(s) && c !in s.callers && Hits(s, key, now) && f in s.all
    ensures SoundFlight(HitStep(s, c, key, id, now), f)
  {
    assert SoundFlight(s, f);
    HoldersUpdate(s.callers, c, HitStep(s, c, key, id, now).callers[c], f);
  }

  lemma ReleaseCounted(s: State, c: nat, f: nat)
    requires Counted(s) && Leaves(s, c) && f in s.all
    ensures SoundFlight(ReleaseStep(s, c), f)
  {
    var t := ReleaseStep(s, c);
    assert SoundFlight(s, f);
    HoldersUpdate(s.callers, c, t.callers[c], f);
  }

  lemma ResolveCounted(s: State, g: nat, reply: Reply, victim: Option<Key>, f: nat)
    requires Counted(s) && Unfinished(s, g) && f in s.all
    ensures SoundFlight(ResolveStep(s, g, reply, victim), f)
  {
    assert SoundFlight(s, f);
  }

  /** Delivering an answer or giving up does not yet release the flight. */
  lemma PhaseCounted(s: State, c: nat, caller: Caller, f: nat)
    requires Counted(s) && c in s.callers && !s.callers[c].phase.Gone? && f in s.all
    requires caller.flight == s.callers[c].flight && !caller.phase.Gone?
    ensures SoundFlight(s.(callers := s.callers[c := caller]), f)
  {
    assert SoundFlight(s, f);
    HoldersUpdate(s.callers, c, caller, f);
  }

  lemma CancelCounted(s: State, e: Event, f: nat)
    requires Mapped(s) && Counted(s) && Enabled(s, e) && (e.Timeout? || e.CloseCancel? || e.Reset?) && f in s.all
    ensures SoundFlight(Apply(s, e), f)
  {
    assert SoundFlight(s, f);
  }

  lemma FlightKept(s: State, e: Event, f: nat)
    requires Inv(s) && Enabled(s, e) && f in Apply(s, e).all
    ensures SoundFlight(Apply(s, e), f)
  {
    match e
    case Enter(c, key, id, now) =>
      if Hits(s, key, now) {
        HitCounted(s, c, key, id, now, f);
      } else {
        MissCounted(s, c, key, id, now, f);
      }
    case Resolve(g, reply, victim) => ResolveCounted(s, g, reply, victim, f);
    case Deliver(c) => PhaseCounted(s, c, Apply(s, e).callers[c], f);
    case GiveUp(c) => PhaseCounted(s, c, Apply(s, e).callers[c], f);
    case Release(c) => ReleaseCounted(s, c, f);
    case _ => CancelCounted(s, e, f);
  }

  lemma CountedKept(s: State, e: Event)
    requires Inv(s) && Enabled(s, e)
    ensures Counted(Apply(s, e))
  {
    forall f | f in Apply(s, e).all
      ensures SoundFlight(Apply(s, e), f)
    {
      FlightKept(s, e, f);
    }
  }

  lemma NoHolders(s: State, f: nat)
    requires CallersSound(s) && f !in s.all
    ensures Holders(s.callers, f) == {}
  {
    forall c | c in s.callers
      ensures !Holds(s.callers[c], f)
    {
      assert SoundCaller(s, c);
    }
  }

  lemma StepInv(s: State, e: Event)
    requires Inv(s) && Enabled(s, e)
    ensures Inv(Apply(s, e))
  {
    MappedKept(s, e);
    CountedKept(s, e);
    CacheKept(s, e);
    CallersKept(s, e);
  }

  // ----------------------------------------------------------------------- runs

  /** Any interleaving from the empty client: one event per region under the lock. */
  ghost predicate Run(states: seq<State>, events: seq<Event>) {
    && |states| == |events| + 1
    && (exists p :: states[0] == Initial(p))
    && forall i {:trigger events[i]} :: 0 <= i < |events| ==> Enabled(states[i], events[i]) && states[i + 1] == Apply(states[i], events[i])
  }

  /** Callers keep their flight; a new one enters in the generation of its first step. */
  predicate Admits(s: State, t: State, c: nat) {
    c in t.callers ==> t.callers[c].entered == if c in s.callers then s.callers[c].entered else s.generation
  }

  ghost predicate Later(s: State, t: State) {
    Extends(s, t) && s.generation <= t.generation && forall c :: Admits(s, t, c)
  }

  lemma StepLater(s: State, e: Event)
    requires Mapped(s) && Counted(s) && Enabled(s, e)
    ensures Later(s, Apply(s, e))
  {
    StepExtends(s, e);
  }

  lemma StepAt(states: seq<State>, events: seq<Event>, i: nat)
    requires Run(states, events) && i < |events| && Inv(states[i])
    ensures Inv(states[i + 1]) && Later(states[i], states[i + 1])
  {
    assert Enabled(states[i], events[i]);
    StepInv(states[i], events[i]);
    StepLater(states[i], events[i]);
  }

  lemma {:induction false} RunInv(states: seq<State>, events: seq<Event>, i: nat)
    requires Run(states, events) && i < |states|
    ensures Inv(states[i])
  {
    if i == 0 {
      var p :| states[0] == Initial(p);
      InitialInv(p);
    } else {
      RunInv(states, events, i - 1);
      StepAt(states, events, i - 1);
    }
  }

  lemma LaterAt(states: seq<State>, events: seq<Event>, i: nat)
    requires Run(states, events) && i < |events|
    ensures Later(states[i], states[i + 1])
  {
    RunInv(states, events, i);
    StepAt(states, events, i);
  }

  lemma ExtendsTransitive(s: State, t: State, u: State)
    requires Extends(s, t) && Extends(t, u)
    ensures Extends(s, u)
  {
  }

  lemma {:induction false} RunExtends(states: seq<State>, events: seq<Event>, i: nat, j: nat)
    requires Run(states, events) && i <= j < |states|
    ensures Extends(states[i], states[j]) && states[i].generation <= states[j].generation
  {
    if i < j {
      RunExtends(states, events, i, j - 1);
      LaterAt(states, events, j - 1);
      ExtendsTransitive(states[i], states[j - 1], states[j]);
    }
  }

  /** A caller that enters at or after step i enters in a generation at least that of step i. */
  lemma {:induction false} EnteredLater(states: seq<State>, events: seq<Event>, i: nat, j: nat, c: nat)
    requires Run(states, events) && i <= j < |states| && c in states[j].callers && c !in states[i].callers
    ensures states[i].generation <= states[j].callers[c].entered
  {
    LaterAt(states, events, j - 1);
    assert Admits(states[j - 1], states[j], c);
    if c in states[j - 1].callers {
      EnteredLater(states, events, i, j - 1, c);
    } else {
      RunExtends(states, events, i, j - 1);
    }
  }

  lemma IsolatedFrom(s: State, t: State, c: nat)
    requires Counted(s) && CallersSound(t) && Extends(s, t) && c in t.callers && s.generation < t.callers[c].entered
    ensures SoundCaller(t, c) && t.callers[c].flight !in s.all
  {
    assert SoundCaller(t, c);
    var f := t.callers[c].flight;
    assert f in s.all ==> SoundFlight(s, f);
  }

  lemma ResetRaises(states: seq<State>, events: seq<Event>, i: nat)
    requires Run(states, events) && i < |events| && events[i].Reset?
    ensures states[i].generation < states[i + 1].generation && states[i + 1].callers == states[i].callers
  {
  }

  /**
    Network isolation, over every run: a caller that enters after a reset never has, by hit or by
    joining, an answer of a flight that existed when the reset happened.
   */
  lemma NetworkIsolation(states: seq<State>, events: seq<Event>, i: nat, j: nat, c: nat)
    requires Run(states, events) && i < j < |states| && events[i].Reset?
    requires c in states[j].callers && c !in states[i].callers
    ensures states[j].callers[c].flight in states[j].all && states[j].callers[c].flight !in states[i].all
    ensures !states[j].callers[c].phase.Waiting? ==> SoundAnswer(states[j], states[j].callers[c], states[j].callers[c].phase.answer)
  {
    RunInv(states, events, i);
    RunInv(states, events, j);
    RunExtends(states, events, i, j);
    ResetRaises(states, events, i);
    EnteredLater(states, events, i + 1, j, c);
    IsolatedFrom(states[i], states[j], c);
  }

  /** Coalescing: callers that wait for the same question on the same network share one flight. */
  lemma SharedWork(s: State, c: nat, d: nat)
    requires Inv(s) && c in s.callers && d in s.callers
    requires s.callers[c].phase.Waiting? && s.callers[d].phase.Waiting?
    requires var f, g := s.callers[c].flight, s.callers[d].flight;
             f in s.all && g in s.all && s.all[f].reply.None? && s.all[g].reply.None? && s.all[f].key == s.all[g].key
             && s.all[f].generation == s.all[g].generation == s.generation
    ensures s.callers[c].flight == s.callers[d].flight
  {
    WantedIsCounted(s, c);
    WantedIsCounted(s, d);
  }

  lemma WantedIsCounted(s: State, c: nat)
    requires Counted(s) && c in s.callers && !s.callers[c].phase.Gone? && s.callers[c].flight in s.all
    ensures SoundFlight(s, s.callers[c].flight) && s.all[s.callers[c].flight].waiters >= 1
  {
    assert c in Holders(s.callers, s.callers[c].flight);
    assert SoundFlight(s, s.callers[c].flight);
  }

  predicate Undisturbed(e: Event) { !e.CloseCancel? && !e.Timeout? }

  lemma {:induction false} OnlyReleased(states: seq<State>, events: seq<Event>, j: nat, f: nat)
    requires Run(states, events) && j < |states| && f in states[j].all
    requires forall i :: 0 <= i < |events| ==> Undisturbed(events[i])
    ensures states[j].all[f].cause == Running || states[j].all[f].cause == Released
  {
    if j > 0 {
      CauseKept(states[j - 1], events[j - 1], f);
      if f in states[j - 1].all {
        OnlyReleased(states, events, j - 1, f);
      }
    }
  }

  lemma CauseKept(s: State, e: Event, f: nat)
    requires Enabled(s, e) && Undisturbed(e) && f in Apply(s, e).all
    ensures f in s.all ==> Apply(s, e).all[f].cause in {s.all[f].cause, Running, Released}
    ensures f !in s.all ==> Apply(s, e).all[f].cause == Running
  {
  }

  /** Without Close and timeouts, no work is ever cancelled while a caller still wants it. */
  lemma NeverCancelledWhileWanted(states: seq<State>, events: seq<Event>, j: nat, c: nat)
    requires Run(states, events) && j < |states| && c in states[j].callers && !states[j].callers[c].phase.Gone?
    requires forall i :: 0 <= i < |events| ==> Undisturbed(events[i])
    ensures states[j].callers[c].flight in states[j].all && states[j].all[states[j].callers[c].flight].cause == Running
  {
    RunInv(states, events, j);
    assert SoundCaller(states[j], c);
    WantedIsCounted(states[j], c);
    OnlyReleased(states, events, j, states[j].callers[c].flight);
  }

  lemma StillUnfinished(s: State, e: Event, f: nat)
    requires Mapped(s) && Counted(s) && Enabled(s, e) && Unfinished(s, f) && !e.Reset? && (e.Resolve? ==> e.f != f)
    ensures Unfinished(Apply(s, e), f) && Apply(s, e).generation == s.generation
  {
    if e.Enter? && e.key !in s.flights {
      assert SoundFlight(s, f);
    }
  }

  lemma WantedIsMapped(t: State, f: nat, c: nat)
    requires Counted(t) && Unfinished(t, f) && t.all[f].generation == t.generation && c in t.callers && Holds(t.callers[c], f)
    ensures t.all[f].key in t.flights && t.flights[t.all[f].key] == f
  {
    WantedIsCounted(t, c);
  }

  /** A flight that somebody still wants stays joinable until it resolves or the network changes. */
  lemma StaysJoinable(s: State, e: Event, k: Key, c: nat)
    requires Inv(s) && Enabled(s, e) && k in s.flights && !e.Reset?
    requires e.Resolve? ==> e.f != s.flights[k]
    requires c in Apply(s, e).callers && Holds(Apply(s, e).callers[c], s.flights[k])
    ensures k in Apply(s, e).flights && Apply(s, e).flights[k] == s.flights[k]
  {
    assert MappedFlight(s, k);
    CountedKept(s, e);
    StepExtends(s, e);
    StillUnfinished(s, e, s.flights[k]);
    WantedIsMapped(Apply(s, e), s.flights[k], c);
  }

  /** Making room removes only expired entries and, at capacity, one with the nearest expiry. */
  lemma RoomKeeps(cache: map<Key, Entry>, now: nat, victim: Option<Key>, k: Key)
    requires |cache| <= CAPACITY && GoodVictim(Live(cache, now), victim) && k in cache && now < cache[k].expires
    ensures var room := Room(Live(cache, now), victim);
            if k in room then room[k] == cache[k]
            else |Live(cache, now)| == CAPACITY && forall x :: x in Live(cache, now) ==> cache[k].expires <= cache[x].expires
  {
    LiveSmaller(cache, now);
    assert k in Live(cache, now);
  }

  /** Storing an answer: its key was free, and an unexpired entry is lost only as the nearest to expiry of 256. */
  lemma OnlyNearestEvicted(s: State, f: nat, reply: Reply, victim: Option<Key>, k: Key)
    requires Mapped(s) && Counted(s) && |s.cache| <= CAPACITY && Unfinished(s, f)
    requires StoreTtl(s, s.all[f], reply) > 0 && GoodVictim(Live(s.cache, reply.at), victim)
    requires k in s.cache && reply.at < s.cache[k].expires
    ensures s.all[f].key !in s.cache
    ensures var t := ResolveStep(s, f, reply, victim);
            if k in t.cache then t.cache[k] == s.cache[k]
            else |Live(s.cache, reply.at)| == CAPACITY && forall x :: x in Live(s.cache, reply.at) ==> s.cache[k].expires <= s.cache[x].expires
  {
    RunningIsMapped(s, f);
    RoomKeeps(s.cache, reply.at, victim, k);
  }

  lemma RunningIsMapped(s: State, f: nat)
    requires Mapped(s) && Counted(s) && Unfinished(s, f) && s.all[f].cause == Running && s.all[f].generation == s.generation
    ensures s.all[f].key in s.flights && s.flights[s.all[f].key] == f && s.all[f].key !in s.cache
  {
    assert SoundFlight(s, f);
    assert MappedFlight(s, s.all[f].key);
  }

  /**
    Every answer from the cache is what the upstream told the flight it came from, older by the
    HTTP age and the whole seconds in the cache, under the caller's identifier, and clean.
   */
  lemma CachedAnswersRefine(s: State, c: nat, upstream: Msg, age: Option<U32>)
    requires Inv(s) && c in s.callers && s.callers[c].phase.Gone? && s.callers[c].phase.answer.FromCache?
    requires s.callers[c].flight in s.all && s.all[s.callers[c].flight].reply.Some?
    requires s.all[s.callers[c].flight].reply.value.response == Some(Received(upstream, age))
    requires s.callers[c].now > s.all[s.callers[c].flight].reply.value.at - SECOND
    ensures var hit := s.callers[c].phase.answer.hit;
            && MessageOlder(hit, upstream, (if age.Some? then age.value else 0)
                                           + SpentSeconds(s.callers[c].now - s.all[s.callers[c].flight].reply.value.at), s.callers[c].id)
            && NoPoison(hit.answer, s.poison)
  {
    assert SoundCaller(s, c);
    var caller := s.callers[c];
    var f := s.all[caller.flight];
    var m := Received(upstream, age);
    HitRefinesUpstream(f.key.query, upstream, age, s.poison, f.reply.value.at, caller.now, caller.id);
    CacheableBounds(f.key.query, m, s.poison);
    StillClean(m.answer, AgeOf(caller.now - f.reply.value.at), s.poison);
  }

  lemma StillClean(rs: seq<RR>, age: U32, p: PoisonSet)
    requires NoPoison(rs, p)
    ensures NoPoison(AgedAll(rs, age), p)
  {
    forall i | 0 <= i < |rs|
      ensures !Poisoned(AgedAll(rs, age)[i], p)
    {
      assert !Poisoned(rs[i], p);
    }
  }
}
