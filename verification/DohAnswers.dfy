/**
  What the callers of the DoH client get, in every run of its query table: answers to their own
  question, under their own identifier, from the flight they joined or from the entry it left; and
  exactly which answers are stored, found again and dropped.
 */
module DohAnswers {
  import opened Options
  import opened NetAddr
  import opened Poison
  import opened DohTtl
  import opened DohCache

  // ----------------------------------------------------------------------- delivered answers

  /**
    In every run, an answer that comes from a flight is the reply of the flight the caller joined for
    its own question: the same message with the caller's identifier instead, the same endpoint and
    the same error; there is no message exactly when the reply had none.
   */
  lemma FlightAnswersExact(states: seq<State>, events: seq<Event>, j: nat, c: nat)
    requires Run(states, events) && j < |states| && c in states[j].callers
    requires !states[j].callers[c].phase.Waiting? && states[j].callers[c].phase.answer.FromFlight?
    ensures var caller := states[j].callers[c];
            && caller.flight in states[j].all && states[j].all[caller.flight].key == caller.key && states[j].all[caller.flight].reply.Some?
            && var reply, a := states[j].all[caller.flight].reply.value, caller.phase.answer;
               && a.endpoint == reply.endpoint && a.failed == reply.failed && (a.message.None? <==> reply.response.None?)
               && (a.message.Some? ==> SameButId(a.message.value, reply.response.value, caller.id))
  {
    RunInv(states, events, j);
    assert SoundCaller(states[j], c);
  }

  /** Every field of out is that of m, except the identifier. */
  predicate SameButId(out: Msg, m: Msg, id: nat) {
    && out.id == id && out.response == m.response && out.truncated == m.truncated && out.signed == m.signed
    && out.opcode == m.opcode && out.rcode == m.rcode && out.question == m.question
    && out.answer == m.answer && out.ns == m.ns && out.extra == m.extra && out.size == m.size
  }

  /** In every run, an answer from the cache is to the caller's own question, from the endpoint that gave it. */
  lemma CachedAnswersOwn(states: seq<State>, events: seq<Event>, j: nat, c: nat)
    requires Run(states, events) && j < |states| && c in states[j].callers
    requires states[j].callers[c].phase.Gone? && states[j].callers[c].phase.answer.FromCache?
    ensures var caller := states[j].callers[c];
            && caller.flight in states[j].all && states[j].all[caller.flight].key == caller.key && !caller.key.plain
            && states[j].all[caller.flight].reply.Some? && states[j].all[caller.flight].reply.value.response.Some?
            && caller.phase.answer.hit.id == caller.id
            && caller.phase.answer.hit.question == states[j].all[caller.flight].reply.value.response.value.question
            && caller.phase.answer.endpoint == states[j].all[caller.flight].reply.value.endpoint
  {
    RunInv(states, events, j);
    assert SoundCaller(states[j], c);
  }

  // ------------------------------------------------------------------------------- entering

  lemma StepOf(states: seq<State>, events: seq<Event>, k: nat)
    requires Run(states, events) && k < |events|
    ensures Inv(states[k]) && Enabled(states[k], events[k]) && states[k + 1] == Apply(states[k], events[k])
  {
    RunInv(states, events, k);
  }

  /**
    A question over DoH whose answer is in the cache and has time left is answered at once and starts
    no work; any other question waits, for the flight of that question if there is one and else for
    a new one on the present network.
   */
  lemma EnterExact(states: seq<State>, events: seq<Event>, k: nat, c: nat, key: Key, id: nat, now: nat)
    requires Run(states, events) && k < |events| && events[k] == Enter(c, key, id, now)
    ensures var s, t := states[k], states[k + 1];
            && c in t.callers && t.callers[c].key == key && t.callers[c].id == id && t.callers[c].now == now
            && if !key.plain && key in s.cache && now < s.cache[key].expires
               then && t.callers[c].phase.Gone? && t.callers[c].phase.answer.FromCache? && t.callers[c].flight == s.cache[key].origin
                    && t.all == s.all && t.flights == s.flights && t.cache == s.cache
               else && t.callers[c].phase.Waiting? && key in t.flights && t.flights[key] == t.callers[c].flight && t.callers[c].flight in t.all
                    && t.all[t.callers[c].flight].key == key && t.all[t.callers[c].flight].generation == s.generation
                    && (key in s.flights ==> t.callers[c].flight == s.flights[key] && t.all.Keys == s.all.Keys)
                    && (key !in s.flights ==> t.callers[c].flight !in s.all && t.all.Keys == s.all.Keys + {t.callers[c].flight})
  {
    StepOf(states, events, k);
    var s := states[k];
    if key in s.flights {
      assert MappedFlight(s, key);
    }
    assert s.next in s.all ==> SoundFlight(s, s.next);
  }

  // ----------------------------------------------------------------------- what is stored

  /** Letters that differ in ASCII case only. */
  predicate SameLetter(a: char, b: char) {
    a == b || ('A' <= a <= 'Z' && b as int == a as int + 32) || ('A' <= b <= 'Z' && a as int == b as int + 32)
  }

  predicate SameName(a: string, b: string) { |a| == |b| && forall i :: 0 <= i < |a| ==> SameLetter(a[i], b[i]) }

  lemma LetterFold(a: char, b: char)
    ensures Lower(a) == Lower(b) <==> SameLetter(a, b)
  {
  }

  lemma NameFold(a: string, b: string)
    ensures EqualFold(a, b) <==> SameName(a, b)
  {
    if |a| == |b| {
      forall i | 0 <= i < |a|
        ensures Lower(a[i]) == Lower(b[i]) <==> SameLetter(a[i], b[i])
      {
        LetterFold(a[i], b[i]);
      }
    }
  }

  function Records(m: Msg): seq<RR> { m.answer + m.ns + m.extra }

  /** A complete, successful, unsigned answer to the question, small enough, without fingerprints and with time left in every record. */
  predicate Ordinary(query: Msg, m: Msg, p: PoisonSet) {
    && m.response && !m.truncated && !m.signed && m.opcode == query.opcode && m.rcode == 0 && m.size <= 4096
    && |query.question| == 1 && |m.question| == 1 && SameName(query.question[0].name, m.question[0].name)
    && query.question[0].qtype == m.question[0].qtype && query.question[0].qclass == m.question[0].qclass
    && m.answer != [] && (forall i :: 0 <= i < |m.answer| ==> !Fingerprint(m.answer[i], p))
    && forall r :: r in Records(m) && !r.data.Opt? ==> r.ttl > 0
  }

  lemma LeastOfThree(m: Msg)
    ensures var d := LeastTtl(m.extra, LeastTtl(m.ns, LeastTtl(m.answer, 60)));
            && d <= 60 && (forall r :: r in Records(m) && !r.data.Opt? ==> d <= r.ttl)
            && (d == 60 || exists r :: r in Records(m) && !r.data.Opt? && d == r.ttl)
  {
    var a := LeastTtl(m.answer, 60);
    var b := LeastTtl(m.ns, a);
    var d := LeastTtl(m.extra, b);
    LeastIn(m.answer, 60);
    LeastIn(m.ns, a);
    LeastIn(m.extra, b);
    if r :| r in m.extra && !r.data.Opt? && d == r.ttl {
      assert r in Records(m);
    } else if r :| r in m.ns && !r.data.Opt? && d == r.ttl {
      assert r in Records(m);
    } else if r :| r in m.answer && !r.data.Opt? && d == r.ttl {
      assert r in Records(m);
    }
  }

  lemma LeastIn(rs: seq<RR>, cap: nat)
    ensures LeastTtl(rs, cap) <= cap && forall r :: r in rs && !r.data.Opt? ==> LeastTtl(rs, cap) <= r.ttl
    ensures LeastTtl(rs, cap) == cap || exists r :: r in rs && !r.data.Opt? && LeastTtl(rs, cap) == r.ttl
  {
    LeastTtlBounds(rs, cap);
    if i :| 0 <= i < |rs| && !rs[i].data.Opt? && LeastTtl(rs, cap) == rs[i].ttl {
      assert rs[i] in rs;
    }
  }

  lemma StorableMeans(query: Msg, m: Msg, p: PoisonSet)
    requires |query.question| == 1
    ensures Storable(query, m, p) && (forall r :: r in Records(m) && !r.data.Opt? ==> r.ttl > 0) <==> Ordinary(query, m, p)
  {
    if |m.question| == 1 {
      NameFold(query.question[0].name, m.question[0].name);
    }
    forall i | 0 <= i < |m.answer|
      ensures Poisoned(m.answer[i], p) <==> Fingerprint(m.answer[i], p)
    {
      FingerprintMeans(m.answer[i], p);
    }
  }

  /** An answer may be kept exactly when it is ordinary, for the least time any of its records has, and at most a minute. */
  lemma KeptIff(query: Msg, m: Msg, p: PoisonSet)
    requires |query.question| == 1
    ensures var d := CacheableTtl(query, Some(m), p);
            && (d > 0 <==> Ordinary(query, m, p))
            && (d > 0 ==> d <= 60 && (forall r :: r in Records(m) && !r.data.Opt? ==> d <= r.ttl)
                          && (d == 60 || exists r :: r in Records(m) && !r.data.Opt? && d == r.ttl))
  {
    StorableMeans(query, m, p);
    LeastOfThree(m);
  }

  /** The entry keeps the message for the least time any of its records has, and at most a minute. */
  predicate KeptFor(e: Entry, m: Msg) {
    var d := e.expires - e.stored;
    && d <= 60 * 1_000_000_000 && (forall r :: r in Records(m) && !r.data.Opt? ==> d <= r.ttl * 1_000_000_000)
    && (d == 60 * 1_000_000_000 || exists r :: r in Records(m) && !r.data.Opt? && d == r.ttl * 1_000_000_000)
  }

  /**
    In every run, the reply of a flight enters the cache exactly when it came over DoH without error,
    the flight was not cancelled and belongs to the present network, and the answer is ordinary; the
    key was free before. Any other reply leaves the cache as it is.
   */
  lemma StoredIff(states: seq<State>, events: seq<Event>, k: nat, f: nat, reply: Reply, victim: Option<Key>)
    requires Run(states, events) && k < |events| && events[k] == Resolve(f, reply, victim)
    ensures f in states[k].all
    ensures var s, t, v := states[k], states[k + 1], states[k].all[f];
            if && !v.key.plain && !reply.failed && v.cause == Running && v.generation == s.generation && reply.response.Some?
               && Ordinary(v.key.query, reply.response.value, s.poison)
            then && v.key !in s.cache && v.key in t.cache && t.cache[v.key].response == reply.response.value
                 && t.cache[v.key].endpoint == reply.endpoint && t.cache[v.key].stored == reply.at && KeptFor(t.cache[v.key], reply.response.value)
            else t.cache == s.cache
  {
    StepOf(states, events, k);
    var s, v := states[k], states[k].all[f];
    assert SoundFlight(s, f);
    if reply.response.Some? {
      KeptIff(v.key.query, reply.response.value, s.poison);
    }
    if v.cause == Running && v.generation == s.generation {
      RunningIsMapped(s, f);
    }
  }

  /** The keys of the entries that have time left. */
  function Unexpired(cache: map<Key, Entry>, now: nat): set<Key> { set k | k in cache && now < cache[k].expires }

  /**
    Every expired entry goes, every entry with time left stays as it was, and only if there are 256 of
    those one with the nearest expiry goes too; the new key comes in.
   */
  ghost predicate Evicted(was: map<Key, Entry>, after: map<Key, Entry>, now: nat, key: Key) {
    var live := Unexpired(was, now);
    && (forall x :: x in after && x != key ==> x in live && after[x] == was[x])
    && if |live| < 256 then after.Keys == live + {key}
       else exists v :: v in live && after.Keys == live - {v} + {key} && forall x :: x in live ==> was[v].expires <= was[x].expires
  }

  lemma RoomEvicts(was: map<Key, Entry>, now: nat, victim: Option<Key>, key: Key, e: Entry)
    requires GoodVictim(Live(was, now), victim)
    ensures Evicted(was, Room(Live(was, now), victim)[key := e], now, key)
  {
    var live := Live(was, now);
    var after := Room(live, victim)[key := e];
    assert live.Keys == Unexpired(was, now) && |live| == |live.Keys|;
    if victim.Some? {
      assert after.Keys == Unexpired(was, now) - {victim.value} + {key};
    } else {
      assert after.Keys == Unexpired(was, now) + {key};
    }
  }

  /** In every run, storing an answer makes room in exactly this way. */
  lemma StoreEvicts(states: seq<State>, events: seq<Event>, k: nat, f: nat, reply: Reply, victim: Option<Key>)
    requires Run(states, events) && k < |events| && events[k] == Resolve(f, reply, victim) && states[k + 1].cache != states[k].cache
    ensures f in states[k].all && Evicted(states[k].cache, states[k + 1].cache, reply.at, states[k].all[f].key)
  {
    StepOf(states, events, k);
    ResolveEvicts(states[k], f, reply, victim);
  }

  lemma ResolveEvicts(s: State, f: nat, reply: Reply, victim: Option<Key>)
    requires Unfinished(s, f) && (StoreTtl(s, s.all[f], reply) > 0 ==> GoodVictim(Live(s.cache, reply.at), victim))
    requires Filled(s, f, reply, victim) != s.cache
    ensures Evicted(s.cache, Filled(s, f, reply, victim), reply.at, s.all[f].key)
  {
    var ttl := StoreTtl(s, s.all[f], reply);
    RoomEvicts(s.cache, reply.at, victim, s.all[f].key, Entry(reply.response.value, reply.endpoint, reply.at, reply.at + ttl * SECOND, f));
  }

  // --------------------------------------------------------------------- nobody is waiting

  /** In every run, unfinished work that no caller wants any more has been cancelled. */
  lemma AbandonedIsCancelled(states: seq<State>, events: seq<Event>, j: nat, f: nat)
    requires Run(states, events) && j < |states| && f in states[j].all && states[j].all[f].reply.None?
    requires forall c :: c in states[j].callers && states[j].callers[c].flight == f ==> states[j].callers[c].phase.Gone?
    ensures states[j].all[f].cause != Running
  {
    RunInv(states, events, j);
    assert SoundFlight(states[j], f);
    assert Holders(states[j].callers, f) == {};
  }

  /** Closing cancels all unfinished work of the present network and nothing that had ended. */
  lemma CloseCancels(states: seq<State>, events: seq<Event>, k: nat, f: nat)
    requires Run(states, events) && k < |events| && events[k].CloseCancel? && f in states[k].all
    ensures f in states[k + 1].all
    ensures states[k].all[f].reply.None? && states[k].all[f].generation == states[k].generation ==> states[k + 1].all[f].cause != Running
    ensures states[k].all[f].cause != Running ==> states[k + 1].all[f].cause == states[k].all[f].cause
  {
    StepOf(states, events, k);
    assert SoundFlight(states[k], f);
  }
}
