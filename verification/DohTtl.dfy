/**
  Time to live of DNS answers in offveil-core/internal/dns/doh_cache.go and doh.go: how long an
  answer may be cached, how it is aged when it is served, and what a cache hit then means.
  Times are nanoseconds, record TTLs are 32-bit seconds.
 */
module DohTtl {
  import opened Options
  import opened NetAddr
  import opened Poison

  const SECOND: int := 1_000_000_000
  const MAX_TTL: nat := 60
  const MAX_SIZE: nat := 4096

  function Lower(c: char): char {
    if 'A' <= c <= 'Z' then (c as int + 32) as char else c
  }

  /** strings.EqualFold on host names, which are ASCII. */
  predicate EqualFold(a: string, b: string) {
    |a| == |b| && forall i :: 0 <= i < |a| ==> Lower(a[i]) == Lower(b[i])
  }

  // -------------------------------------------------------------------- ageing

  function AgedRecord(r: RR, age: U32): RR {
    if r.data.Opt? then r else r.(ttl := if r.ttl > age then r.ttl - age else 0)
  }

  function AgedAll(rs: seq<RR>, age: U32): (out: seq<RR>)
    ensures |out| == |rs|
  {
    seq(|rs|, i requires 0 <= i < |rs| => AgedRecord(rs[i], age))
  }

  function Aged(m: Msg, age: U32): Msg {
    m.(answer := AgedAll(m.answer, age), ns := AgedAll(m.ns, age), extra := AgedAll(m.extra, age))
  }

  /** Go divides durations towards zero. */
  function WholeSeconds(d: int): int { if d >= 0 then d / SECOND else -((-d) / SECOND) }

  /** uint32(now.Sub(stored) / time.Second), which wraps for a negative duration. */
  function AgeOf(d: int): U32 { WholeSeconds(d) % 0x1_0000_0000 }

  /** The message a client receives: an HTTP Age header has already been subtracted. */
  function Received(m: Msg, age: Option<U32>): Msg {
    match age
    case None => m
    case Some(a) => Aged(m, a)
  }

  // ----------------------------------------------------------------- cacheability

  predicate Storable(query: Msg, m: Msg, p: PoisonSet) {
    && m.response && !m.truncated && !m.signed && m.opcode == query.opcode && m.rcode == SUCCESS
    && |m.question| == 1 && |query.question| == 1 && m.answer != [] && m.size <= MAX_SIZE
    && EqualFold(query.question[0].name, m.question[0].name)
    && query.question[0].qtype == m.question[0].qtype && query.question[0].qclass == m.question[0].qclass
    && NoPoison(m.answer, p)
  }

  /** The least TTL of a section, with OPT records left out and a cap. */
  function LeastTtl(rs: seq<RR>, cap: nat): nat {
    if rs == [] then cap
    else
      var least := LeastTtl(rs[..|rs| - 1], cap);
      var last := rs[|rs| - 1];
      if !last.data.Opt? && last.ttl < least then last.ttl else least
  }

  /** Seconds the answer may be kept; zero means not at all. */
  function CacheableTtl(query: Msg, m: Option<Msg>, p: PoisonSet): nat {
    if m.None? || !Storable(query, m.value, p) then 0
    else LeastTtl(m.value.extra, LeastTtl(m.value.ns, LeastTtl(m.value.answer, MAX_TTL)))
  }

  method LeastTtlLoop(rs: seq<RR>, cap: nat) returns (ttl: nat)
    ensures ttl == LeastTtl(rs, cap)
  {
    ttl := cap;
    for i := 0 to |rs|
      invariant ttl == LeastTtl(rs[..i], cap)
    {
      assert rs[..i + 1][..i] == rs[..i];
      if rs[i].data.Opt? {
        continue;
      }
      if rs[i].ttl < ttl {
        ttl := rs[i].ttl;
      }
    }
    assert rs[..|rs|] == rs;
  }

  method AnyPoison(answer: seq<RR>, p: PoisonSet) returns (found: bool)
    requires OnlyIPv4(p)
    ensures found == !NoPoison(answer, p)
  {
    for i := 0 to |answer|
      invariant forall j :: 0 <= j < i ==> !Poisoned(answer[j], p)
    {
      if answer[i].data.A? {
        SameMatch(answer[i], p);
        var addr := SliceAddr(answer[i].data.ip);
        if addr.Some? && addr.value in p {
          return true;
        }
      }
    }
    return false;
  }

  method CacheableTtlLoop(query: Msg, m: Option<Msg>, p: PoisonSet) returns (ttl: nat)
    requires OnlyIPv4(p) && |query.question| == 1
    ensures ttl == CacheableTtl(query, m, p)
  {
    if m.None? || !m.value.response || m.value.truncated || m.value.signed || m.value.opcode != query.opcode ||
       m.value.rcode != SUCCESS || |m.value.question| != 1 || |m.value.answer| == 0 || m.value.size > MAX_SIZE {
      return 0;
    }
    var q, r := query.question[0], m.value.question[0];
    if !EqualFold(q.name, r.name) || q.qtype != r.qtype || q.qclass != r.qclass {
      return 0;
    }
    var poisoned := AnyPoison(m.value.answer, p);
    if poisoned {
      return 0;
    }
    ttl := LeastTtlLoop(m.value.answer, MAX_TTL);
    ttl := LeastTtlLoop(m.value.ns, ttl);
    ttl := LeastTtlLoop(m.value.extra, ttl);
  }

  lemma {:induction false} LeastTtlBounds(rs: seq<RR>, cap: nat)
    ensures LeastTtl(rs, cap) <= cap
    ensures forall i :: 0 <= i < |rs| && !rs[i].data.Opt? ==> LeastTtl(rs, cap) <= rs[i].ttl
    ensures LeastTtl(rs, cap) == cap || exists i :: 0 <= i < |rs| && !rs[i].data.Opt? && LeastTtl(rs, cap) == rs[i].ttl
  {
    if rs != [] {
      var n := |rs| - 1;
      LeastTtlBounds(rs[..n], cap);
      assert forall i :: 0 <= i < n ==> rs[i] == rs[..n][i];
      if i :| 0 <= i < n && !rs[..n][i].data.Opt? && LeastTtl(rs[..n], cap) == rs[..n][i].ttl {
        assert rs[i] == rs[..n][i];
      }
    }
  }

  predicate TtlsAtLeast(rs: seq<RR>, n: nat) {
    forall i :: 0 <= i < |rs| && !rs[i].data.Opt? ==> rs[i].ttl >= n
  }

  /** The cache time never exceeds a minute or the TTL of any record it covers, and implies a clean answer. */
  lemma CacheableBounds(query: Msg, m: Msg, p: PoisonSet)
    ensures var ttl := CacheableTtl(query, Some(m), p);
            && ttl <= MAX_TTL
            && (ttl > 0 ==> NoPoison(m.answer, p) && Storable(query, m, p))
            && (ttl > 0 ==> TtlsAtLeast(m.answer, ttl) && TtlsAtLeast(m.ns, ttl) && TtlsAtLeast(m.extra, ttl))
  {
    var a := LeastTtl(m.answer, MAX_TTL);
    var b := LeastTtl(m.ns, a);
    LeastTtlBounds(m.answer, MAX_TTL);
    LeastTtlBounds(m.ns, a);
    LeastTtlBounds(m.extra, b);
  }

  // ------------------------------------------------------------------- cache hits

  /** A served copy: aged by the time it spent in the cache and given the caller's identifier. */
  function Hit(stored: Msg, storedAt: int, now: int, id: nat): Msg {
    Aged(stored, AgeOf(now - storedAt)).(id := id)
  }

  /** Each record of out is that of m, with exactly `spent` seconds gone from every TTL but OPT's and some left. */
  predicate ExactlyOlder(out: seq<RR>, m: seq<RR>, spent: nat) {
    && |out| == |m|
    && forall i :: 0 <= i < |m| ==>
         && out[i].data == m[i].data
         && (if m[i].data.Opt? then out[i].ttl == m[i].ttl else out[i].ttl == m[i].ttl - spent && out[i].ttl >= 1)
  }

  predicate MessageOlder(out: Msg, m: Msg, spent: nat, id: nat) {
    && out == m.(id := id, answer := out.answer, ns := out.ns, extra := out.extra)
    && ExactlyOlder(out.answer, m.answer, spent)
    && ExactlyOlder(out.ns, m.ns, spent)
    && ExactlyOlder(out.extra, m.extra, spent)
  }

  function SpentSeconds(d: int): nat { if d < 0 then 0 else d / SECOND }

  lemma AgeOfMeans(d: int)
    requires d < 60 * SECOND
    ensures d > -SECOND ==> AgeOf(d) == SpentSeconds(d)
    ensures d > -SECOND ==> AgeOf(d) < 60
  {
    if d >= 0 {
      assert 0 <= d / SECOND < 60;
    } else if d > -SECOND {
      assert (-d) / SECOND == 0;
    }
  }

  /** Clamping never takes effect when every TTL exceeds the age: the subtraction is exact. */
  lemma AgedExactly(rs: seq<RR>, age: U32)
    requires TtlsAtLeast(rs, age + 1)
    ensures ExactlyOlder(AgedAll(rs, age), rs, age)
  {
  }

  /** An aged section with time left had more time than the age. */
  lemma AgedLeft(rs: seq<RR>, age: U32, n: nat)
    requires n >= 1 && TtlsAtLeast(AgedAll(rs, age), n)
    ensures TtlsAtLeast(rs, n + age)
  {
    forall i | 0 <= i < |rs| && !rs[i].data.Opt?
      ensures rs[i].ttl >= n + age
    {
      assert AgedAll(rs, age)[i] == AgedRecord(rs[i], age);
    }
  }

  lemma OlderTwice(a: seq<RR>, b: seq<RR>, c: seq<RR>, s: nat, t: nat)
    requires ExactlyOlder(b, a, s) && ExactlyOlder(c, b, t)
    ensures ExactlyOlder(c, a, s + t)
  {
  }

  lemma SectionHit(u: seq<RR>, age: U32, spent: U32, ttl: nat)
    requires TtlsAtLeast(AgedAll(u, age), ttl) && spent < ttl
    ensures ExactlyOlder(AgedAll(AgedAll(u, age), spent), u, age + spent)
  {
    AgedLeft(u, age, ttl);
    AgedExactly(u, age);
    AgedExactly(AgedAll(u, age), spent);
    OlderTwice(u, AgedAll(u, age), AgedAll(AgedAll(u, age), spent), age, spent);
  }

  lemma AgedZero(m: Msg)
    ensures Aged(m, 0) == m
  {
    assert AgedAll(m.answer, 0) == m.answer;
    assert AgedAll(m.ns, 0) == m.ns;
    assert AgedAll(m.extra, 0) == m.extra;
  }

  /**
    Main result: a hit is what the upstream said, older by the HTTP age and by the whole seconds
    it spent in the cache, to the second and with at least one second left. The caller's clock is
    read before the lock and may lag the store by less than a second.
   */
  lemma HitRefinesUpstream(query: Msg, upstream: Msg, age: Option<U32>, p: PoisonSet, storedAt: int, now: int, id: nat)
    requires var ttl := CacheableTtl(query, Some(Received(upstream, age)), p);
             ttl > 0 && now < storedAt + ttl * SECOND && now > storedAt - SECOND
    ensures MessageOlder(Hit(Received(upstream, age), storedAt, now, id), upstream,
                         (if age.Some? then age.value else 0) + SpentSeconds(now - storedAt), id)
  {
    var stored := Received(upstream, age);
    var ttl := CacheableTtl(query, Some(stored), p);
    CacheableBounds(query, stored, p);
    var a: U32 := if age.Some? then age.value else 0;
    AgedZero(upstream);
    assert stored == Aged(upstream, a);
    AgeOfMeans(now - storedAt);
    var spent := AgeOf(now - storedAt);
    assert spent < ttl by {
      SpentBelow(now - storedAt, ttl);
    }
    SectionHit(upstream.answer, a, spent, ttl);
    SectionHit(upstream.ns, a, spent, ttl);
    SectionHit(upstream.extra, a, spent, ttl);
  }

  lemma SpentBelow(d: int, ttl: nat)
    requires ttl > 0 && d < ttl * SECOND
    ensures SpentSeconds(d) < ttl
  {
  }

  /**
    The clock condition is exact: for a stored answer with a record that is not OPT, a hit loses
    the right number of seconds if and only if the caller's clock lags by less than a second.
   */
  lemma HitExactIff(query: Msg, stored: Msg, p: PoisonSet, storedAt: int, now: int, id: nat)
    requires var ttl := CacheableTtl(query, Some(stored), p); ttl > 0 && now < storedAt + ttl * SECOND
    requires now > storedAt - 0x1_0000_0000 * SECOND
    requires exists i :: 0 <= i < |stored.answer| && !stored.answer[i].data.Opt?
    ensures MessageOlder(Hit(stored, storedAt, now, id), stored, SpentSeconds(now - storedAt), id) <==> now > storedAt - SECOND
  {
    if now > storedAt - SECOND {
      HitRefinesUpstream(query, stored, None, p, storedAt, now, id);
    } else {
      var k := (storedAt - now) / SECOND;
      assert 1 <= k < 0x1_0000_0000;
      assert AgeOf(now - storedAt) == 0x1_0000_0000 - k;
      var i :| 0 <= i < |stored.answer| && !stored.answer[i].data.Opt?;
      CacheableBounds(query, stored, p);
      assert Hit(stored, storedAt, now, id).answer[i] == AgedRecord(stored.answer[i], AgeOf(now - storedAt));
    }
  }

  /**
    A clock that lags by one second, met by an answer with one record of sixty seconds: the entry is
    still fresh, but its record is served as already expired.
   */
  lemma LaggingClock(query: Msg, stored: Msg, r: RR, p: PoisonSet, storedAt: int, id: nat)
    requires r.data.A? && r.data.ip == Bytes4(0x0102_0304) && r.ttl == 60 && V4(0x0102_0304) !in p
    requires query == Msg(7, false, false, false, 0, SUCCESS, [Question("x.", 1, 1)], [], [], [], 20)
    requires stored == query.(response := true, answer := [r], size := 36)
    ensures CacheableTtl(query, Some(stored), p) == 60
    ensures Hit(stored, storedAt, storedAt - SECOND, id).answer == [r.(ttl := 0)]
    ensures !MessageOlder(Hit(stored, storedAt, storedAt - SECOND, id), stored, SpentSeconds(-SECOND), id)
  {
    assert [r][..0] == [] && LeastTtl([], MAX_TTL) == 60;
    assert LeastTtl([r], MAX_TTL) == 60;
    assert Storable(query, stored, p);
    assert AgeOf(-SECOND) == 0xffff_ffff;
    assert Hit(stored, storedAt, storedAt - SECOND, id).answer == [AgedRecord(r, 0xffff_ffff)];
    assert stored.answer[0] == r;
    HitExactIff(query, stored, p, storedAt, storedAt - SECOND, id);
  }

  // ------------------------------------------------------- records on the heap

  /** A record as the DNS library holds it: shared by reference, with a TTL that can be assigned. */
  class Record {
    const data: RData
    var ttl: U32

    constructor (data: RData, ttl: U32)
      ensures this.data == data && this.ttl == ttl
    {
      this.data, this.ttl := data, ttl;
    }

    function Value(): RR
      reads this
    {
      RR(data, ttl)
    }
  }

  function Values(rs: seq<Record>): (out: seq<RR>)
    reads rs
    ensures |out| == |rs|
    ensures forall i :: 0 <= i < |rs| ==> out[i] == rs[i].Value()
  {
    if rs == [] then [] else Values(rs[..|rs| - 1]) + [rs[|rs| - 1].Value()]
  }

  predicate NoSharing(rs: seq<Record>) {
    forall i, j :: 0 <= i < j < |rs| ==> rs[i] != rs[j]
  }

  /** Msg.Copy: new record objects with the same contents. */
  method CopyRecords(rs: seq<Record>) returns (out: seq<Record>)
    ensures |out| == |rs| && NoSharing(out)
    ensures forall i :: 0 <= i < |out| ==> fresh(out[i])
    ensures Values(out) == old(Values(rs))
  {
    out := [];
    for i := 0 to |rs|
      invariant |out| == i && NoSharing(out)
      invariant forall j :: 0 <= j < i ==> fresh(out[j])
      invariant forall j :: 0 <= j < i ==> out[j].Value() == old(rs[j].Value())
    {
      var r := new Record(rs[i].data, rs[i].ttl);
      out := out + [r];
    }
  }

  /** ageDNSResponse on one section: the TTLs are assigned in place. */
  method AgeRecords(rs: seq<Record>, age: U32)
    requires NoSharing(rs)
    modifies rs
    ensures Values(rs) == AgedAll(old(Values(rs)), age)
  {
    for i := 0 to |rs|
      invariant forall j :: 0 <= j < i ==> rs[j].Value() == AgedRecord(old(rs[j].Value()), age)
      invariant forall j :: i <= j < |rs| ==> rs[j].Value() == old(rs[j].Value())
    {
      if rs[i].data.Opt? {
        continue;
      }
      if rs[i].ttl > age {
        rs[i].ttl := rs[i].ttl - age;
      } else {
        rs[i].ttl := 0;
      }
    }
  }

  /** Serving a cached section: the caller's records are new, aged, and the stored ones are as before. */
  method ServeSection(stored: seq<Record>, storedAt: int, now: int) returns (out: seq<Record>)
    ensures forall i :: 0 <= i < |out| ==> fresh(out[i])
    ensures Values(out) == AgedAll(old(Values(stored)), AgeOf(now - storedAt))
    ensures Values(stored) == old(Values(stored))
  {
    out := CopyRecords(stored);
    AgeRecords(out, AgeOf(now - storedAt));
  }
}
