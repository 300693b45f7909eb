/** Route exclusion of offveil-core/internal/capture/exclude.go. */
module Exclude {
  import opened Options
  import opened NetAddr

  function Ip4(a: nat, b: nat, c: nat, d: nat): Addr
    requires a < 256 && b < 256 && c < 256 && d < 256
  {
    V4(((a * 256 + b) * 256 + c) * 256 + d)
  }

  function Net4(a: nat, b: nat, c: nat, d: nat, bits: nat): Cidr
    requires a < 256 && b < 256 && c < 256 && d < 256 && bits <= 32
  {
    Prefix(Ip4(a, b, c, d), bits)
  }

  function Net6(n: U128, bits: nat): Cidr
    requires bits <= 128
  {
    Prefix(V6(n, false), bits)
  }

  function LocalPrefixes(): seq<Cidr> {
    [ Net4(0, 0, 0, 0, 8), Net4(127, 0, 0, 0, 8), Net4(10, 0, 0, 0, 8), Net4(172, 16, 0, 0, 12),
      Net4(192, 168, 0, 0, 16), Net4(169, 254, 0, 0, 16), Net4(224, 0, 0, 0, 4), Net4(240, 0, 0, 0, 4),
      Net4(255, 255, 255, 255, 32),
      Net6(0, 128), Net6(1, 128),
      Net6(0xfc00_0000_0000_0000_0000_0000_0000_0000, 7),
      Net6(0xfe80_0000_0000_0000_0000_0000_0000_0000, 10),
      Net6(0xff00_0000_0000_0000_0000_0000_0000_0000, 8) ]
  }

  function BootstrapExcludePrefixes(): seq<Cidr> {
    [ Net4(1, 1, 1, 1, 32), Net4(1, 0, 0, 1, 32), Net4(8, 8, 8, 8, 32), Net4(8, 8, 4, 4, 32),
      Net4(9, 9, 9, 9, 32), Net4(149, 112, 112, 112, 32),
      Net6(0x2606_4700_4700_0000_0000_0000_0000_1111, 128), Net6(0x2606_4700_4700_0000_0000_0000_0000_1001, 128),
      Net6(0x2001_4860_4860_0000_0000_0000_0000_8888, 128), Net6(0x2001_4860_4860_0000_0000_0000_0000_8844, 128),
      Net6(0x2620_00fe_0000_0000_0000_0000_0000_00fe, 128), Net6(0x2620_00fe_0000_0000_0000_0000_0000_0009, 128) ]
  }

  function DefaultExcludePrefixes(): seq<Cidr> {
    LocalPrefixes() + BootstrapExcludePrefixes()
  }

  // The class tests of net/netip, on the leading bytes of the address.

  predicate IsLoopback(a: Addr) {
    match a
    case NoAddr => false
    case V4(n) => n / 0x100_0000 == 127
    case V6(n, _) => n == 1
  }

  predicate IsPrivate(a: Addr) {
    match a
    case NoAddr => false
    case V4(n) => n / 0x100_0000 == 10 || n / 0x10_0000 == 172 * 16 + 1 || n / 0x1_0000 == 192 * 256 + 168
    case V6(n, _) => n / 0x200_0000_0000_0000_0000_0000_0000_0000 == 0x7e
  }

  predicate IsLinkLocalUnicast(a: Addr) {
    match a
    case NoAddr => false
    case V4(n) => n / 0x1_0000 == 169 * 256 + 254
    case V6(n, _) => n / 0x40_0000_0000_0000_0000_0000_0000_0000 == 0x3fa
  }

  predicate IsMulticast(a: Addr) {
    match a
    case NoAddr => false
    case V4(n) => n / 0x1000_0000 == 14
    case V6(n, _) => n / 0x100_0000_0000_0000_0000_0000_0000_0000 == 0xff
  }

  predicate IsUnspecified(a: Addr) {
    a == V4(0) || a == V6(0, false)
  }

  predicate IsSpecial(a: Addr) {
    IsLoopback(a) || IsPrivate(a) || IsLinkLocalUnicast(a) || IsMulticast(a) || IsUnspecified(a)
  }

  predicate IsExcluded(a: Addr, excludes: seq<Cidr>) {
    || a.NoAddr?
    || IsSpecial(a.Unmap())
    || exists i :: 0 <= i < |excludes| && Contains(excludes[i], a.Unmap())
  }

  /** The prefix a candidate stands for: masked, and rewritten to IPv4 when it is IPv4-mapped. */
  function Normalized(c: Cidr): Option<Cidr> {
    if c.BadPrefix? then None
    else
      var p := Masked(c);
      if !p.addr.Is4In6() then Some(p)
      else if p.bits < 96 then None
      else Some(Prefix(p.addr.Unmap(), p.bits - 96))
  }

  predicate Passes(p: Cidr, excludes: seq<Cidr>) {
    && p.Prefix?
    && p.bits != 0
    && !IsExcluded(p.addr, excludes)
    && forall i :: 0 <= i < |excludes| ==> !Overlaps(excludes[i], p)
  }

  /** What a single candidate contributes to the allowlist, if anything. */
  function Kept(c: Cidr, excludes: seq<Cidr>): Option<Cidr> {
    match Normalized(c)
    case None => None
    case Some(p) => if Passes(p, excludes) then Some(p) else None
  }

  /** The allowlist as a function of the candidates: the kept prefixes, each at its first occurrence. */
  function Allowed(candidates: seq<Cidr>, excludes: seq<Cidr>): seq<Cidr> {
    if candidates == [] then []
    else
      var before := Allowed(candidates[..|candidates| - 1], excludes);
      match Kept(candidates[|candidates| - 1], excludes)
      case None => before
      case Some(p) => if p in before then before else before + [p]
  }

  method IsExcludedLoop(addr: Addr, excludes: seq<Cidr>) returns (r: bool)
    ensures r == IsExcluded(addr, excludes)
  {
    if addr.NoAddr? {
      return true;
    }
    var a := addr.Unmap();
    if IsLoopback(a) || IsPrivate(a) || IsLinkLocalUnicast(a) || IsMulticast(a) || IsUnspecified(a) {
      return true;
    }
    for i := 0 to |excludes|
      invariant forall j :: 0 <= j < i ==> !Contains(excludes[j], a)
    {
      if Contains(excludes[i], a) {
        return true;
      }
    }
    return false;
  }

  method OverlapsAny(p: Cidr, excludes: seq<Cidr>) returns (skip: bool)
    ensures skip <==> exists m :: 0 <= m < |excludes| && Overlaps(excludes[m], p)
  {
    for j := 0 to |excludes|
      invariant forall m :: 0 <= m < j ==> !Overlaps(excludes[m], p)
    {
      if Overlaps(excludes[j], p) {
        return true;
      }
    }
    return false;
  }

  /** A nil exclusion list means the defaults. */
  method FilterAllowlist(candidates: seq<Cidr>, given: Option<seq<Cidr>>) returns (out: seq<Cidr>)
    ensures out == Allowed(candidates, if given.None? then DefaultExcludePrefixes() else given.value)
  {
    var excludes := if given.None? then DefaultExcludePrefixes() else given.value;
    out := FilterWith(candidates, excludes);
  }

  method FilterWith(candidates: seq<Cidr>, excludes: seq<Cidr>) returns (out: seq<Cidr>)
    ensures out == Allowed(candidates, excludes)
  {
    out := [];
    var seen: set<Cidr> := {};
    for k := 0 to |candidates|
      invariant out == Allowed(candidates[..k], excludes)
      invariant forall p :: p in seen <==> p in out
    {
      assert candidates[..k + 1][..k] == candidates[..k];
      var p := candidates[k];
      if p.BadPrefix? {
        continue;
      }
      p := Masked(p);
      if p.addr.Is4In6() {
        if p.bits < 96 {
          continue;
        }
        p := Prefix(p.addr.Unmap(), p.bits - 96);
      }
      assert Normalized(candidates[k]) == Some(p);
      if p.bits == 0 {
        continue;
      }
      var excluded := IsExcludedLoop(p.addr, excludes);
      if excluded {
        continue;
      }
      var skip := OverlapsAny(p, excludes);
      if skip {
        continue;
      }
      assert Kept(candidates[k], excludes) == Some(p);
      if p in seen {
        continue;
      }
      seen := seen + {p};
      out := out + [p];
    }
    assert candidates[..|candidates|] == candidates;
  }

  // ------------------------------------------------------------------ proofs

  /** Exactly the prefixes some candidate contributes are in the list, and none of them twice. */
  lemma {:induction false} AllowedExact(candidates: seq<Cidr>, excludes: seq<Cidr>)
    ensures var out := Allowed(candidates, excludes);
            && (forall p :: p in out <==> exists i :: 0 <= i < |candidates| && Kept(candidates[i], excludes) == Some(p))
            && (forall i, j :: 0 <= i < j < |out| ==> out[i] != out[j])
  {
    if candidates != [] {
      var n := |candidates| - 1;
      var before := candidates[..n];
      AllowedExact(before, excludes);
      var out := Allowed(candidates, excludes);
      forall p
        ensures p in out <==> exists i :: 0 <= i < |candidates| && Kept(candidates[i], excludes) == Some(p)
      {
        if p in Allowed(before, excludes) {
          var i :| 0 <= i < |before| && Kept(before[i], excludes) == Some(p);
          assert Kept(candidates[i], excludes) == Some(p);
        }
        if i :| 0 <= i < |candidates| && Kept(candidates[i], excludes) == Some(p) {
          if i < n {
            assert Kept(before[i], excludes) == Some(p);
          }
        }
      }
    }
  }

  /** The list is in candidate order: it grows only at its end as candidates are appended. */
  lemma {:induction false} AllowedInOrder(candidates: seq<Cidr>, excludes: seq<Cidr>, k: nat)
    requires k <= |candidates|
    ensures Allowed(candidates[..k], excludes) <= Allowed(candidates, excludes)
    decreases |candidates|
  {
    if k < |candidates| {
      var n := |candidates| - 1;
      assert candidates[..n][..k] == candidates[..k];
      AllowedInOrder(candidates[..n], excludes, k);
    } else {
      assert candidates[..k] == candidates;
    }
  }

  /** Every listed prefix is masked and none of them is a default route. */
  lemma AllowedMasked(candidates: seq<Cidr>, excludes: seq<Cidr>, q: Cidr)
    requires q in Allowed(candidates, excludes)
    ensures q.Prefix? && q.bits != 0 && Masked(q) == q
  {
    AllowedExact(candidates, excludes);
    var i :| 0 <= i < |candidates| && Kept(candidates[i], excludes) == Some(q);
    NormalizedMasked(candidates[i], q);
  }

  lemma NormalizedMasked(c: Cidr, q: Cidr)
    requires Normalized(c) == Some(q)
    ensures q.Prefix? && Masked(q) == q
  {
    var w := c.addr.Width();
    var p := Masked(c);
    MaskedBlock(c.addr.Number(), w, c.bits);
    assert Masked(p) == p;
    if p.addr.Is4In6() {
      var size := Pow2(128 - c.bits);
      var n := p.addr.Number();
      assert n == Block(n, 128, c.bits) * size;
      TailMasked(Block(n, 128, c.bits), size, c.bits);
      assert n % 0x1_0000_0000 % size == 0;
      assert 32 - q.bits == 128 - c.bits;
      assert q.addr.n == (q.addr.n / size) * size;
    }
  }

  /** Dropping the upper 96 bits of a masked number keeps it masked. */
  lemma TailMasked(b: nat, size: nat, bits: nat)
    requires 96 <= bits <= 128 && size == Pow2(128 - bits)
    ensures ((b * size) % 0x1_0000_0000) % size == 0
  {
    var m := Pow2(bits - 96);
    Pow2Add(128 - bits, bits - 96);
    SmallPowers();
    MultipleTail(b, size, m);
  }

  lemma MultipleTail(b: nat, size: nat, m: nat)
    requires size > 0 && m > 0 && size * m == 0x1_0000_0000
    ensures ((b * size) % 0x1_0000_0000) % size == 0
  {
    var q := b / m;
    var t := b % m;
    assert b == q * m + t;
    assert b * size == q * (size * m) + t * size by {
      assert (q * m) * size == q * (size * m);
    }
    assert t * size < size * m by {
      assert (m - t) * size >= size by { MultipleBound(m - t, size); }
    }
    Quotient(b * size, 0x1_0000_0000, q, t * size);
    assert (b * size) % 0x1_0000_0000 == t * size;
    Quotient(t * size, size, t, 0);
  }

  /** Every address class the code tests by hand is also in the default exclusion list. */
  lemma SpecialIsListed(a: Addr) returns (i: nat)
    requires IsSpecial(a) && !(a.V6? && a.zoned)
    ensures i < |DefaultExcludePrefixes()| && Contains(DefaultExcludePrefixes()[i], a)
  {
    i := if a.V4? then SpecialIndex4(a) else SpecialIndex6(a);
    if a.V4? {
      Special4Listed(a);
    } else {
      Special6Listed(a);
    }
    assert LocalPrefixes()[i] == DefaultExcludePrefixes()[i];
  }

  function SpecialIndex4(a: Addr): nat {
    if IsLoopback(a) then 1
    else if IsUnspecified(a) then 0
    else if IsMulticast(a) then 6
    else if IsLinkLocalUnicast(a) then 5
    else if a.V4? && a.n / 0x100_0000 == 10 then 2
    else if a.V4? && a.n / 0x1_0000 == 192 * 256 + 168 then 4
    else 3
  }

  lemma Special4Listed(a: Addr)
    requires IsSpecial(a) && a.V4?
    ensures Contains(LocalPrefixes()[SpecialIndex4(a)], a)
  {
    SmallPowers();
  }

  function SpecialIndex6(a: Addr): nat {
    if IsLoopback(a) then 10
    else if IsUnspecified(a) then 9
    else if IsPrivate(a) then 11
    else if IsLinkLocalUnicast(a) then 12
    else 13
  }

  lemma Special6Listed(a: Addr)
    requires IsSpecial(a) && a.V6? && !a.zoned
    ensures Contains(LocalPrefixes()[SpecialIndex6(a)], a)
  {
    var i := SpecialIndex6(a);
    if i == 9 || i == 10 {
      assert a.n6 == i - 9;
    } else {
      TopBlocks(a.n6);
    }
  }

  lemma TopBlocks(n: U128)
    ensures Block(n, 128, 7) == n / 0x200_0000_0000_0000_0000_0000_0000_0000
    ensures Block(n, 128, 8) == n / 0x100_0000_0000_0000_0000_0000_0000_0000
    ensures Block(n, 128, 10) == n / 0x40_0000_0000_0000_0000_0000_0000_0000
    ensures Block(0xfc00_0000_0000_0000_0000_0000_0000_0000, 128, 7) == 0x7e
    ensures Block(0xfe80_0000_0000_0000_0000_0000_0000_0000, 128, 10) == 0x3fa
    ensures Block(0xff00_0000_0000_0000_0000_0000_0000_0000, 128, 8) == 0xff
  {
    Pow2Values();
  }

  /** The list names every address class that the code also tests by hand. */
  ghost predicate ListsSpecials(ex: seq<Cidr>) {
    forall a :: IsSpecial(a) && !(a.V6? && a.zoned) ==> exists i :: 0 <= i < |ex| && Contains(ex[i], a)
  }

  lemma DefaultListsSpecials()
    ensures ListsSpecials(DefaultExcludePrefixes())
  {
    forall a | IsSpecial(a) && !(a.V6? && a.zoned)
      ensures exists i :: 0 <= i < |DefaultExcludePrefixes()| && Contains(DefaultExcludePrefixes()[i], a)
    {
      var i := SpecialIsListed(a);
    }
  }

  lemma ExcludedIsListed(a: Addr, ex: seq<Cidr>)
    requires ListsSpecials(ex)
    requires !a.NoAddr? && !(a.V6? && a.zoned) && !a.Is4In6() && IsExcluded(a, ex)
    ensures exists i :: 0 <= i < |ex| && Contains(ex[i], a)
  {
  }

  /**
    Main result: testing the base address and overlap is enough. No address covered by the
    allowlist is excluded, unless it is the IPv6 spelling of an IPv4 address.
   */
  lemma CoveredNotExcluded(candidates: seq<Cidr>, ex: seq<Cidr>, q: Cidr, a: Addr)
    requires ListsSpecials(ex)
    requires q in Allowed(candidates, ex) && Contains(q, a) && !a.Is4In6()
    ensures !IsExcluded(a, ex)
  {
    AllowedExact(candidates, ex);
    assert Passes(q, ex);
    if IsExcluded(a, ex) {
      ExcludedIsListed(a, ex);
      var i :| 0 <= i < |ex| && Contains(ex[i], a);
      SharedMeansOverlap(ex[i], q, a);
      assert false;
    }
  }

  /** First address of the block that holds the IPv6 spellings of all IPv4 addresses. */
  const MAPPED_BASE: Addr := V6(0xffff_0000_0000, false)
  const MAPPED_TEN: Addr := V6(0xffff_0a00_0001, false)

  lemma MappedBlock(a: Addr, bits: nat)
    requires a.Is4In6() && bits <= 96
    ensures Block(a.n6, 128, bits) == Block(0xffff_0000_0000, 128, bits)
  {
    SmallPowers();
    assert Block(a.n6, 128, 96) == Block(0xffff_0000_0000, 128, 96);
    BlockShorter(a.n6, 0xffff_0000_0000, 128, 96, bits);
  }

  /** A listed IPv6 prefix that covers an IPv4-mapped address is shorter than /96, so it covers all of them. */
  lemma CoversMapped(c: Cidr, q: Cidr, a: Addr)
    requires Normalized(c) == Some(q) && Contains(q, a) && a.Is4In6()
    ensures q.bits < 96 && Contains(q, MAPPED_BASE)
  {
    assert q.addr.V6? && !q.addr.Is4In6();
    if q.bits >= 96 {
      BlockShorter(a.n6, q.addr.n6, 128, q.bits, 96);
      SmallPowers();
      assert false;
    }
    MappedBlock(a, q.bits);
  }

  /** What a candidate contributes covers the mapped block exactly when the candidate itself does. */
  lemma KeptCoversMapped(c: Cidr, ex: seq<Cidr>, q: Cidr)
    requires Kept(c, ex) == Some(q)
    ensures Contains(q, MAPPED_BASE) <==> Contains(c, MAPPED_BASE)
  {
    var p := Masked(c);
    MaskedContains(c, MAPPED_BASE);
    if p.addr.Is4In6() && Contains(c, MAPPED_BASE) {
      // The candidate is ::ffff:0.0.0.0 with at least 96 bits, which is dropped as unspecified.
      SmallPowers();
      MappedTail(p);
      assert false;
    }
  }

  lemma MappedTail(p: Cidr)
    requires p.Prefix? && Masked(p) == p && p.addr.Is4In6() && p.bits >= 96 && Contains(p, MAPPED_BASE)
    ensures p.addr.n6 == 0xffff_0000_0000
  {
    var size := Pow2(128 - p.bits);
    var m := Pow2(p.bits - 96);
    Pow2Add(128 - p.bits, p.bits - 96);
    SmallPowers();
    MappedMultiple(size, m);
    assert p.addr.n6 == Block(0xffff_0000_0000, 128, p.bits) * size;
  }

  lemma MappedMultiple(size: nat, m: nat)
    requires size > 0 && size * m == 0x1_0000_0000
    ensures (0xffff_0000_0000 / size) * size == 0xffff_0000_0000
  {
    assert (0xffff * m) * size == 0xffff * (size * m);
    Quotient(0xffff_0000_0000, size, 0xffff * m, 0);
  }

  /**
    The statement without the exception holds exactly for the candidate lists in which no
    kept candidate covers the block of IPv4-mapped addresses.
   */
  lemma CoverageSafeIff(candidates: seq<Cidr>, ex: seq<Cidr>)
    requires ListsSpecials(ex)
    ensures (forall q, a :: q in Allowed(candidates, ex) && Contains(q, a) ==> !IsExcluded(a, ex))
            <==>
            (forall i :: 0 <= i < |candidates| && Kept(candidates[i], ex).Some? ==> !Contains(candidates[i], MAPPED_BASE))
  {
    AllowedExact(candidates, ex);
    if i :| 0 <= i < |candidates| && Kept(candidates[i], ex).Some? && Contains(candidates[i], MAPPED_BASE) {
      MappedIsExcluded(candidates[i], ex);
      assert Kept(candidates[i], ex).value in Allowed(candidates, ex);
    } else {
      forall q, a | q in Allowed(candidates, ex) && Contains(q, a)
        ensures !IsExcluded(a, ex)
      {
        if a.Is4In6() {
          var i :| 0 <= i < |candidates| && Kept(candidates[i], ex) == Some(q);
          CoversMapped(candidates[i], q, a);
          KeptCoversMapped(candidates[i], ex, q);
          assert false;
        }
        CoveredNotExcluded(candidates, ex, q, a);
      }
    }
  }

  lemma MappedIsExcluded(c: Cidr, ex: seq<Cidr>)
    requires Kept(c, ex).Some? && Contains(c, MAPPED_BASE)
    ensures Contains(Kept(c, ex).value, MAPPED_TEN) && IsExcluded(MAPPED_TEN, ex)
  {
    var q := Kept(c, ex).value;
    KeptCoversMapped(c, ex, q);
    CoversMapped(c, q, MAPPED_BASE);
    MappedBlock(MAPPED_TEN, q.bits);
    assert IsPrivate(MAPPED_TEN.Unmap());
  }

  const WIDE6: Prefix := Prefix(V6(0xfff0_0000_0000, false), 92)

  lemma WideKept(ex: seq<Cidr>)
    requires forall i :: 0 <= i < |ex| ==> FarFromWide(ex[i])
    ensures Kept(WIDE6, ex) == Some(WIDE6) && Contains(WIDE6, MAPPED_TEN) && IsExcluded(MAPPED_TEN, ex)
  {
    SmallPowers();
    assert IsPrivate(MAPPED_TEN.Unmap());
    assert Block(0xfff0_0000_0000, 128, 92) == 0xfff;
    assert Masked(WIDE6) == WIDE6 && !WIDE6.addr.Is4In6();
    forall i | 0 <= i < |ex|
      ensures !Overlaps(ex[i], WIDE6) && !Contains(ex[i], WIDE6.addr)
    {
      FarApart(ex[i]);
    }
    assert !IsSpecial(WIDE6.addr);
  }

  /** The exception is real: ::fff0:0:0/92 is kept and covers the private address ::ffff:10.0.0.1. */
  lemma MappedCounterexample()
    ensures var ex := DefaultExcludePrefixes();
            Kept(WIDE6, ex) == Some(WIDE6) && Contains(WIDE6, MAPPED_TEN) && IsExcluded(MAPPED_TEN, ex)
  {
    var ex := DefaultExcludePrefixes();
    forall i | 0 <= i < |ex|
      ensures FarFromWide(ex[i])
    {
      DefaultFar(i);
    }
    WideKept(ex);
  }

  /** IPv4, a single IPv6 address well away from ::fff0:0:0, or a short IPv6 prefix at the top. */
  predicate FarFromWide(e: Cidr) {
    e.Prefix? &&
    (|| e.addr.V4?
     || (e.addr.V6? && e.bits == 128 && (e.addr.n6 < 0x10_0000_0000 || e.addr.n6 >= 0x1_0000_0000_0000_0000))
     || (e.addr.V6? && 7 <= e.bits <= 10 && e.addr.n6 >= 0xf000_0000_0000_0000_0000_0000_0000_0000))
  }

  lemma LocalFar(i: nat)
    requires i < |LocalPrefixes()|
    ensures FarFromWide(LocalPrefixes()[i])
  {
  }

  lemma BootstrapFar(i: nat)
    requires i < |BootstrapExcludePrefixes()|
    ensures FarFromWide(BootstrapExcludePrefixes()[i])
  {
  }

  lemma DefaultFar(i: nat)
    requires i < |DefaultExcludePrefixes()|
    ensures FarFromWide(DefaultExcludePrefixes()[i])
  {
    if i < |LocalPrefixes()| {
      LocalFar(i);
    } else {
      BootstrapFar(i - |LocalPrefixes()|);
    }
  }

  lemma FarApart(e: Cidr)
    requires FarFromWide(e)
    ensures !Overlaps(e, WIDE6) && !Contains(e, WIDE6.addr)
  {
    if e.addr.V6? {
      if e.bits == 128 {
        WideApart(e.addr.n6);
      } else {
        TopApart(e);
      }
    }
  }

  lemma TopApart(e: Cidr)
    requires e.Prefix? && e.addr.V6? && 7 <= e.bits <= 10 && e.addr.n6 >= 0xf000_0000_0000_0000_0000_0000_0000_0000
    ensures !Overlaps(e, WIDE6) && !Contains(e, WIDE6.addr)
  {
    Pow2Values();
    assert Pow2(119) == 2 * Pow2(118);
    assert e.bits == 7 || e.bits == 8 || e.bits == 9 || e.bits == 10;
    assert Block(0xfff0_0000_0000, 128, e.bits) == 0 && Block(e.addr.n6, 128, e.bits) != 0;
    SameMask(e.addr.n6, 0xfff0_0000_0000, 128, e.bits);
  }

  lemma WideApart(n: U128)
    requires n < 0x10_0000_0000 || n >= 0x1_0000_0000_0000_0000
    ensures !Overlaps(Net6(n, 128), WIDE6) && !Contains(Net6(n, 128), WIDE6.addr)
  {
    SmallPowers();
    assert Block(n, 128, 92) != 0xfff && Block(0xfff0_0000_0000, 128, 92) == 0xfff;
    SameMask(n, 0xfff0_0000_0000, 128, 92);
  }
}
