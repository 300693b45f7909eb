/**
  DNS messages, the censorship fingerprints of offveil-core/internal/dns/poison.go, the
  in-place answer filter of plain.go and the reply the stub writes (stub.go).
 */
module Poison {
  import opened Options
  import opened NetAddr

  // ----------------------------------------------------------------- messages

  /** The address bytes of an A record, by length. */
  datatype RawIP = Bytes4(n: U32) | Bytes16(m: U128) | OtherLength

  datatype SvcbValue = Ipv6Hint | OtherValue(v: string)

  datatype RData = A(ip: RawIP) | Opt | Svcb(values: seq<SvcbValue>) | Plain(text: string)

  datatype RR = RR(data: RData, ttl: U32)

  datatype Question = Question(name: string, qtype: nat, qclass: nat)

  datatype Msg = Msg(
    id: nat, response: bool, truncated: bool, signed: bool, opcode: nat, rcode: nat,
    question: seq<Question>, answer: seq<RR>, ns: seq<RR>, extra: seq<RR>, size: nat)

  const SUCCESS: nat := 0
  const SERVFAIL: nat := 2
  const REFUSED: nat := 5
  const TYPE_AAAA: nat := 28


  // ------------------------------------------------------------- fingerprints

  type PoisonSet = map<Addr, string>

  ghost predicate OnlyIPv4(p: PoisonSet) { forall a :: a in p ==> a.V4? }

  function DefaultPoisonAddrs(): seq<U32> {
    [ 0xc3af_fe02, 0xc1c0_6229, 0xc1c0_622a, 0xc1c0_622b, 0xc1c0_622d, 0xc1c0_622e, 0xc1c0_622f, 0xc1c0_6230, 0xc1c0_6231 ]
  }

  function Decimal(k: nat): string {
    if k < 10 then [('0' as int + k) as char] else Decimal(k / 10) + [('0' as int + k % 10) as char]
  }

  /** The text of an IPv4 address. */
  function Dotted(n: U32): string {
    Decimal(n / 0x100_0000) + "." + Decimal(n / 0x1_0000 % 0x100) + "." + Decimal(n / 0x100 % 0x100) + "." + Decimal(n % 0x100)
  }

  const OONI_ADDR: U32 := 0xc3af_fe02

  function DefaultName(n: U32): string { if n == OONI_ADDR then "ooni.tr_6" else "tr:" + Dotted(n) }

  function ExtraName(n: U32): string { "ruleset:" + Dotted(n) }

  method DefaultPoisonSet() returns (p: PoisonSet)
    ensures OnlyIPv4(p)
    ensures forall a :: a in p <==> a.V4? && a.n in DefaultPoisonAddrs()
    ensures forall a :: a in p ==> p[a] == DefaultName(a.n)
  {
    p := map[];
    var raw := DefaultPoisonAddrs();
    for i := 0 to |raw|
      invariant forall a :: a in p <==> a.V4? && a.n in raw[..i]
      invariant forall a :: a in p ==> p[a] == DefaultName(a.n)
    {
      assert raw[..i + 1] == raw[..i] + [raw[i]];
      p := p[V4(raw[i]) := DefaultName(raw[i])];
    }
    assert raw[..|raw|] == raw;
  }

  /** Adds signed fingerprints; entries that are not IPv4 addresses are ignored and known ones keep their name. */
  method WithExtra(p: PoisonSet, raw: seq<Option<Addr>>) returns (out: PoisonSet)
    requires OnlyIPv4(p)
    ensures OnlyIPv4(out)
    ensures forall a :: a in p ==> a in out && out[a] == p[a]
    ensures forall a :: a in out <==> a in p || (a.V4? && Some(a) in raw)
    ensures forall a :: a in out && a !in p ==> out[a] == ExtraName(a.n)
  {
    out := p;
    for i := 0 to |raw|
      invariant OnlyIPv4(out)
      invariant forall a :: a in p ==> a in out && out[a] == p[a]
      invariant forall a :: a in out <==> a in p || (a.V4? && Some(a) in raw[..i])
      invariant forall a :: a in out && a !in p ==> out[a] == ExtraName(a.n)
    {
      assert raw[..i + 1] == raw[..i] + [raw[i]];
      if raw[i].None? || !raw[i].value.V4? {
        continue;
      }
      if raw[i].value !in out {
        out := out[raw[i].value := ExtraName(raw[i].value.n)];
      }
    }
    assert raw[..|raw|] == raw;
  }

  /** net.IP.To4: four bytes, or sixteen bytes that spell an IPv4 address. */
  function To4(ip: RawIP): Option<Addr> {
    match ip
    case Bytes4(n) => Some(V4(n))
    case Bytes16(m) => if V6(m, false).Is4In6() then Some(V6(m, false).Unmap()) else None
    case OtherLength => None
  }

  /** netip.AddrFromSlice followed by Unmap. */
  function SliceAddr(ip: RawIP): Option<Addr> {
    match ip
    case Bytes4(n) => Some(V4(n))
    case Bytes16(m) => Some(V6(m, false).Unmap())
    case OtherLength => None
  }

  predicate Poisoned(r: RR, p: PoisonSet) {
    r.data.A? && To4(r.data.ip).Some? && To4(r.data.ip).value in p
  }

  predicate NoPoison(answer: seq<RR>, p: PoisonSet) {
    forall i :: 0 <= i < |answer| ==> !Poisoned(answer[i], p)
  }

  /** An address record whose four bytes, or whose sixteen bytes that spell an IPv4 address, are a fingerprint. */
  predicate Fingerprint(r: RR, p: PoisonSet) {
    r.data.A? && match r.data.ip
      case Bytes4(n) => V4(n) in p
      case Bytes16(m) => m / 0x1_0000_0000 == 0xffff && V4(m % 0x1_0000_0000) in p
      case OtherLength => false
  }

  lemma FingerprintMeans(r: RR, p: PoisonSet)
    ensures Poisoned(r, p) <==> Fingerprint(r, p)
  {
  }

  /** The cache's own test reads the address bytes differently but finds the same records. */
  lemma SameMatch(r: RR, p: PoisonSet)
    requires OnlyIPv4(p) && r.data.A?
    ensures SliceAddr(r.data.ip).Some? && SliceAddr(r.data.ip).value in p <==> Poisoned(r, p)
  {
  }

  // --------------------------------------------------------- the answer filter

  predicate Keep(r: RR, p: PoisonSet) {
    !r.data.A? || (To4(r.data.ip).Some? && To4(r.data.ip).value !in p)
  }

  /** The order-preserving filter: A records survive only with a usable, clean address. */
  function Filtered(answer: seq<RR>, p: PoisonSet): seq<RR> {
    if answer == [] then []
    else Filtered(answer[..|answer| - 1], p) + if Keep(answer[|answer| - 1], p) then [answer[|answer| - 1]] else []
  }

  /** filterPoisonAnswers compacts the slice in place: reads run ahead of writes in the same array. */
  method FilterPoisonAnswers(a: array<RR>, p: PoisonSet) returns (n: nat, poisonID: string, poisoned: bool)
    modifies a
    ensures n <= a.Length && a[..n] == Filtered(old(a[..]), p)
    ensures poisoned <==> exists i :: 0 <= i < a.Length && Poisoned(old(a[i]), p)
    ensures poisoned <==> exists i :: 0 <= i < a.Length && Fingerprint(old(a[i]), p)
    ensures poisoned ==> exists i :: 0 <= i < a.Length && Poisoned(old(a[i]), p) && poisonID == p[To4(old(a[i]).data.ip).value]
  {
    n, poisonID, poisoned := 0, "", false;
    ghost var was := a[..];
    for i := 0 to a.Length
      invariant n <= i
      invariant forall j :: i <= j < a.Length ==> a[j] == was[j]
      invariant a[..n] == Filtered(was[..i], p)
      invariant poisoned <==> exists j :: 0 <= j < i && Poisoned(was[j], p)
      invariant poisoned ==> exists j :: 0 <= j < i && Poisoned(was[j], p) && poisonID == p[To4(was[j].data.ip).value]
    {
      var rr := a[i];
      ghost var kept := a[..n];
      assert was[..i + 1][..i] == was[..i];
      if !rr.data.A? {
        a[n] := rr;
        assert a[..n + 1] == kept + [rr];
        n := n + 1;
        continue;
      }
      var addr := To4(rr.data.ip);
      if addr.None? {
        continue;
      }
      if addr.value in p {
        assert Poisoned(was[i], p);
        poisoned := true;
        poisonID := p[addr.value];
        continue;
      }
      a[n] := rr;
      assert a[..n + 1] == kept + [rr];
      n := n + 1;
    }
    assert was[..a.Length] == was;
    PoisonMeans(was, p);
    assert forall i :: 0 <= i < a.Length ==> was[i] == old(a[i]);
  }

  /** What survives is exactly the kept records, in order, and none of them is a fingerprint. */
  lemma FilteredExact(answer: seq<RR>, p: PoisonSet)
    ensures NoPoison(Filtered(answer, p), p)
    ensures (forall i :: 0 <= i < |answer| ==> Keep(answer[i], p)) ==> Filtered(answer, p) == answer
    ensures forall r :: r in Filtered(answer, p) <==> r in answer && Keep(r, p)
  {
    FilteredMembers(answer, p);
    var out := Filtered(answer, p);
    forall i | 0 <= i < |out|
      ensures !Poisoned(out[i], p)
    {
      assert out[i] in out;
    }
    if forall i :: 0 <= i < |answer| ==> Keep(answer[i], p) {
      FilteredWhole(answer, p);
    }
  }

  lemma {:induction false} FilteredWhole(answer: seq<RR>, p: PoisonSet)
    requires forall i :: 0 <= i < |answer| ==> Keep(answer[i], p)
    ensures Filtered(answer, p) == answer
  {
    if answer != [] {
      var n := |answer| - 1;
      FilteredWhole(answer[..n], p);
      assert answer == answer[..n] + [answer[n]];
    }
  }

  lemma {:induction false} FilteredMembers(answer: seq<RR>, p: PoisonSet)
    ensures forall r :: r in Filtered(answer, p) <==> r in answer && Keep(r, p)
  {
    if answer != [] {
      var n := |answer| - 1;
      FilteredMembers(answer[..n], p);
      assert answer == answer[..n] + [answer[n]];
    }
  }

  /**
    What a client may be given: any record that is no address record, and an address record of four
    bytes, or of sixteen that spell an IPv4 address, whose address is no fingerprint.
   */
  predicate Servable(r: RR, p: PoisonSet) {
    match r.data
    case A(Bytes4(n)) => V4(n) !in p
    case A(Bytes16(m)) => m / 0x1_0000_0000 == 0xffff && V4(m % 0x1_0000_0000) !in p
    case A(OtherLength) => false
    case _ => true
  }

  lemma KeepMeans(r: RR, p: PoisonSet)
    ensures Keep(r, p) <==> Servable(r, p)
  {
  }

  /** a can be obtained from b by deleting elements. */
  predicate Within<T(==)>(a: seq<T>, b: seq<T>) {
    if a == [] then true
    else if b == [] then false
    else if a[|a| - 1] == b[|b| - 1] then Within(a[..|a| - 1], b[..|b| - 1])
    else Within(a, b[..|b| - 1])
  }

  lemma {:induction false} FilteredWithin(answer: seq<RR>, p: PoisonSet)
    ensures Within(Filtered(answer, p), answer)
  {
    if answer != [] {
      var n := |answer| - 1;
      var last, out := answer[n], Filtered(answer[..n], p);
      FilteredWithin(answer[..n], p);
      if Keep(last, p) {
        assert (out + [last])[..|out|] == out;
      } else {
        assert out + [] == out;
        FilteredMembers(answer[..n], p);
        assert out != [] ==> out[|out| - 1] in out;
      }
    }
  }

  lemma {:induction false} FilteredCount(answer: seq<RR>, p: PoisonSet, r: RR)
    ensures multiset(Filtered(answer, p))[r] == if Keep(r, p) then multiset(answer)[r] else 0
  {
    if answer != [] {
      var n := |answer| - 1;
      FilteredCount(answer[..n], p, r);
      assert answer == answer[..n] + [answer[n]];
    }
  }

  /** The filter keeps every servable record as often as it occurs and in order, and nothing else. */
  lemma FilteredCounts(answer: seq<RR>, p: PoisonSet)
    ensures Within(Filtered(answer, p), answer)
    ensures forall r :: multiset(Filtered(answer, p))[r] == if Servable(r, p) then multiset(answer)[r] else 0
    ensures (forall i :: 0 <= i < |answer| ==> Servable(answer[i], p)) ==> Filtered(answer, p) == answer
  {
    FilteredWithin(answer, p);
    FilteredExact(answer, p);
    forall r
      ensures multiset(Filtered(answer, p))[r] == (if Servable(r, p) then multiset(answer)[r] else 0) && (Keep(r, p) <==> Servable(r, p))
    {
      KeepMeans(r, p);
      FilteredCount(answer, p, r);
    }
  }

  // ----------------------------------------------------------------- the reply

  function StripRecord(r: RR): RR {
    match r.data
    case Svcb(values) => RR(Svcb(WithoutHints(values)), r.ttl)
    case _ => r
  }

  function WithoutHints(values: seq<SvcbValue>): seq<SvcbValue> {
    if values == [] then []
    else WithoutHints(values[..|values| - 1]) + if values[|values| - 1] == Ipv6Hint then [] else [values[|values| - 1]]
  }

  predicate NoHints(answer: seq<RR>) {
    forall i :: 0 <= i < |answer| && answer[i].data.Svcb? ==> Ipv6Hint !in answer[i].data.values
  }

  /** Exactly the IPv6 hints go; every other value stays as often as it occurs and in order. */
  lemma {:induction false} HintsGone(values: seq<SvcbValue>)
    ensures Ipv6Hint !in WithoutHints(values) && Within(WithoutHints(values), values)
    ensures forall v :: multiset(WithoutHints(values))[v] == if v == Ipv6Hint then 0 else multiset(values)[v]
  {
    if values != [] {
      var init, last := values[..|values| - 1], values[|values| - 1];
      var out := WithoutHints(init);
      HintsGone(init);
      assert values == init + [last];
      if last != Ipv6Hint {
        assert (out + [last])[..|out|] == out;
      } else {
        assert out + [] == out;
        assert out != [] ==> out[|out| - 1] in out;
      }
    }
  }

  method StripIPv6Hints(a: array<RR>, n: nat)
    requires n <= a.Length
    modifies a
    ensures forall i :: 0 <= i < n ==> a[i] == StripRecord(old(a[i]))
    ensures forall i :: n <= i < a.Length ==> a[i] == old(a[i])
  {
    for i := 0 to n
      invariant forall j :: 0 <= j < i ==> a[j] == StripRecord(old(a[j]))
      invariant forall j :: i <= j < a.Length ==> a[j] == old(a[j])
    {
      if a[i].data.Svcb? {
        var values := a[i].data.values;
        var kept: seq<SvcbValue> := [];
        for k := 0 to |values|
          invariant kept == WithoutHints(values[..k])
        {
          assert values[..k + 1][..k] == values[..k];
          if !values[k].Ipv6Hint? {
            kept := kept + [values[k]];
          }
        }
        assert values[..|values|] == values;
        a[i] := RR(Svcb(kept), a[i].ttl);
      }
    }
  }

  function ErrorReply(r: Msg, rcode: nat): Msg {
    Msg(r.id, true, false, false, r.opcode, rcode, if r.question == [] then [] else [r.question[0]], [], [], [], 0)
  }

  function Stripped(answer: seq<RR>): (r: seq<RR>)
    ensures |r| == |answer|
  {
    seq(|answer|, i requires 0 <= i < |answer| => StripRecord(answer[i]))
  }

  /** The answer section the stub writes for a message without fingerprints. */
  function Served(answer: seq<RR>, p: PoisonSet, ipv4Only: bool): seq<RR> {
    if ipv4Only then Stripped(Filtered(answer, p)) else Filtered(answer, p)
  }

  lemma ServedClean(answer: seq<RR>, p: PoisonSet, ipv4Only: bool)
    ensures NoPoison(Served(answer, p, ipv4Only), p)
    ensures ipv4Only ==> NoHints(Served(answer, p, ipv4Only))
  {
    var f := Filtered(answer, p);
    FilteredExact(answer, p);
    var out := Served(answer, p, ipv4Only);
    forall i | 0 <= i < |out|
      ensures !Poisoned(out[i], p) && (ipv4Only && out[i].data.Svcb? ==> Ipv6Hint !in out[i].data.values)
    {
      assert !Poisoned(f[i], p);
      if f[i].data.Svcb? {
        HintsGone(f[i].data.values);
      }
    }
  }

  /** Nothing is taken from an answer of servable records, apart from hints. */
  lemma ServedWhole(answer: seq<RR>, p: PoisonSet, ipv4Only: bool)
    ensures (forall i :: 0 <= i < |answer| ==> Servable(answer[i], p)) ==>
            var out := Served(answer, p, ipv4Only);
            && |out| == |answer| && NoPoison(answer, p) && (!ipv4Only ==> out == answer)
            && forall i :: 0 <= i < |answer| && !answer[i].data.Svcb? ==> out[i] == answer[i]
  {
    FilteredCounts(answer, p);
    FilteredExact(answer, p);
  }

  lemma PoisonMeans(answer: seq<RR>, p: PoisonSet)
    ensures NoPoison(answer, p) <==> forall i :: 0 <= i < |answer| ==> !Fingerprint(answer[i], p)
  {
    forall i | 0 <= i < |answer|
      ensures Poisoned(answer[i], p) <==> Fingerprint(answer[i], p)
    {
      FingerprintMeans(answer[i], p);
    }
  }

  method CleanAnswer(answer: seq<RR>, p: PoisonSet, ipv4Only: bool) returns (out: seq<RR>, id: string, poisoned: bool)
    ensures out == Served(answer, p, ipv4Only)
    ensures poisoned <==> !NoPoison(answer, p)
  {
    var buffer := new RR[|answer|](i requires 0 <= i < |answer| => answer[i]);
    assert buffer[..] == answer;
    var n;
    n, id, poisoned := FilterPoisonAnswers(buffer, p);
    if ipv4Only {
      ghost var f := buffer[..n];
      StripIPv6Hints(buffer, n);
      assert buffer[..n] == Stripped(f);
    }
    out := buffer[..n];
  }

  /** Stub.handle, with the answers of the shared client (which may come from its cache) and of plain UDP given. */
  method Handle(r: Msg, doh: Option<Msg>, plain: Option<Msg>, p: PoisonSet, ipv4Only: bool) returns (reply: Msg)
    ensures reply.id == r.id && reply.response
    ensures NoPoison(reply.answer, p)
    ensures ipv4Only ==> NoHints(reply.answer)
    ensures r.question == [] ==> reply.rcode == 5 && reply.answer == []
    ensures r.question != [] && r.question[0].qtype == 28 && ipv4Only ==> reply.rcode == 0 && reply.answer == []
    ensures r.question != [] && !(r.question[0].qtype == 28 && ipv4Only) ==>
              match if doh.Some? then doh else plain
              case None => reply.rcode == 2 && reply.answer == []
              case Some(m) =>
                if exists i :: 0 <= i < |m.answer| && Fingerprint(m.answer[i], p) then reply.rcode == 2 && reply.answer == []
                else reply == m.(id := r.id, response := true, answer := Served(m.answer, p, ipv4Only))
    ensures r.question != [] && !(r.question[0].qtype == 28 && ipv4Only) && (doh.Some? || plain.Some?) ==>
              var m := if doh.Some? then doh.value else plain.value;
              (forall i :: 0 <= i < |m.answer| ==> Servable(m.answer[i], p)) ==>
                && reply.rcode == m.rcode && reply.question == m.question && reply.ns == m.ns && reply.extra == m.extra
                && |reply.answer| == |m.answer| && (!ipv4Only ==> reply.answer == m.answer)
                && forall i :: 0 <= i < |m.answer| && !m.answer[i].data.Svcb? ==> reply.answer[i] == m.answer[i]
  {
    if |r.question| == 0 {
      return ErrorReply(r, REFUSED);
    }
    if r.question[0].qtype == TYPE_AAAA && ipv4Only {
      return ErrorReply(r, SUCCESS);
    }
    var resp := doh;
    if doh.None? {
      resp := plain;
      if plain.None? {
        return ErrorReply(r, SERVFAIL);
      }
    }
    var answer, _, poisoned := CleanAnswer(resp.value.answer, p, ipv4Only);
    ServedClean(resp.value.answer, p, ipv4Only);
    ServedWhole(resp.value.answer, p, ipv4Only);
    PoisonMeans(resp.value.answer, p);
    reply := resp.value.(id := r.id, response := true, answer := answer);
    if poisoned {
      reply := reply.(rcode := SERVFAIL, answer := []);
    }
  }
}
