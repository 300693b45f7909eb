/**
  Exactly which prefixes the allowlist of offveil-core/internal/capture/exclude.go keeps, in terms of
  the addresses they cover, and what the address classes and prefixes are as ranges of numbers.
 */
module ExcludeExact {
  import opened Options
  import opened NetAddr
  import opened Exclude

  // ----------------------------------------------------------------- prefixes as ranges

  lemma SameQuotient(n: nat, m: nat, size: nat)
    requires size > 0
    ensures n / size == m / size <==> (m / size) * size <= n < (m / size) * size + size
  {
    assert n == (n / size) * size + n % size;
    if (m / size) * size <= n < (m / size) * size + size {
      QuotientNotNegative(m, size);
      Quotient(n, size, m / size, n - (m / size) * size);
    }
  }

  /** A prefix covers the addresses of its family, without zone, whose numbers start with its leading bits. */
  lemma ContainsRange(p: Cidr, a: Addr)
    requires p.Prefix?
    ensures var size := Pow2(p.addr.Width() - p.bits); var base := (p.addr.Number() / size) * size;
            Contains(p, a) <==> && ((p.addr.V4? && a.V4?) || (p.addr.V6? && a.V6? && !a.zoned))
                                && base <= a.Number() < base + size
  {
    var size := Pow2(p.addr.Width() - p.bits);
    SameQuotient(a.Number(), p.addr.Number(), size);
  }

  /** The address classes of IPv4 as ranges: unspecified, loopback, private, link-local, multicast. */
  lemma SpecialRanges4(n: U32)
    ensures IsSpecial(V4(n)) <==>
            || n == 0 || 0x7f00_0000 <= n <= 0x7fff_ffff || 0x0a00_0000 <= n <= 0x0aff_ffff || 0xac10_0000 <= n <= 0xac1f_ffff
            || 0xc0a8_0000 <= n <= 0xc0a8_ffff || 0xa9fe_0000 <= n <= 0xa9fe_ffff || 0xe000_0000 <= n <= 0xefff_ffff
  {
  }

  /** The address classes of IPv6 as ranges: unspecified, loopback, unique local, link-local, multicast. */
  lemma SpecialRanges6(n: U128, zoned: bool)
    ensures IsSpecial(V6(n, zoned)) <==>
            || (n == 0 && !zoned) || n == 1
            || 0xfc00_0000_0000_0000_0000_0000_0000_0000 <= n <= 0xfdff_ffff_ffff_ffff_ffff_ffff_ffff_ffff
            || 0xfe80_0000_0000_0000_0000_0000_0000_0000 <= n <= 0xfebf_ffff_ffff_ffff_ffff_ffff_ffff_ffff
            || 0xff00_0000_0000_0000_0000_0000_0000_0000 <= n
  {
  }

  // -------------------------------------------------------------- what is kept, exactly

  /** No address is both in q and in an exclusion. */
  ghost predicate Apart(q: Cidr, ex: seq<Cidr>) {
    forall k, a :: 0 <= k < |ex| && Contains(q, a) ==> !Contains(ex[k], a)
  }

  lemma ContainsBase(q: Cidr)
    requires q.Prefix?
    ensures Contains(q, q.addr)
  {
  }

  lemma ApartMeans(q: Cidr, ex: seq<Cidr>)
    requires q.Prefix?
    ensures Apart(q, ex) <==> forall k :: 0 <= k < |ex| ==> !Overlaps(ex[k], q)
  {
    if Apart(q, ex) {
      forall k | 0 <= k < |ex|
        ensures !Overlaps(ex[k], q)
      {
        if Overlaps(ex[k], q) {
          OverlapShares(ex[k], q);
          assert false;
        }
      }
    } else {
      var k, a :| 0 <= k < |ex| && Contains(q, a) && Contains(ex[k], a);
      SharedMeansOverlap(ex[k], q, a);
    }
  }

  lemma PassesIff(q: Cidr, ex: seq<Cidr>)
    requires q.Prefix? && !q.addr.Is4In6()
    ensures Passes(q, ex) <==> q.bits > 0 && !IsSpecial(q.addr) && Apart(q, ex)
  {
    ApartMeans(q, ex);
    ContainsBase(q);
    if Apart(q, ex) {
      assert forall k :: 0 <= k < |ex| ==> !Contains(ex[k], q.addr);
    }
  }

  lemma NormalizedBase(c: Cidr, q: Cidr)
    requires Normalized(c) == Some(q)
    ensures q.Prefix? && !q.addr.Is4In6()
  {
  }

  /** A contribution is in the list exactly when it is no default route, starts on an ordinary address and covers nothing excluded. */
  lemma ContributionIff(candidates: seq<Cidr>, ex: seq<Cidr>, i: nat, q: Cidr)
    requires i < |candidates| && Normalized(candidates[i]) == Some(q)
    ensures q in Allowed(candidates, ex) <==> q.bits > 0 && !IsSpecial(q.addr) && Apart(q, ex)
  {
    NormalizedBase(candidates[i], q);
    PassesIff(q, ex);
    AllowedExact(candidates, ex);
    if Passes(q, ex) {
      assert Kept(candidates[i], ex) == Some(q);
    }
  }

  /**
    An IPv4 candidate is in the list, with its host bits cleared, exactly when it has a length, does not
    start on a special address and shares no address with any exclusion.
   */
  lemma KeptIff4(candidates: seq<Cidr>, ex: seq<Cidr>, i: nat)
    requires i < |candidates| && candidates[i].Prefix? && candidates[i].addr.V4?
    ensures Masked(candidates[i]) in Allowed(candidates, ex) <==>
            && candidates[i].bits > 0 && !IsSpecial(Masked(candidates[i]).addr)
            && forall k, a :: 0 <= k < |ex| && Contains(candidates[i], a) ==> !Contains(ex[k], a)
  {
    ContributionIff(candidates, ex, i, Masked(candidates[i]));
    SameCover(candidates[i], ex);
  }

  lemma SameCover(c: Cidr, ex: seq<Cidr>)
    ensures Apart(Masked(c), ex) <==> Apart(c, ex)
  {
    forall a
      ensures Contains(Masked(c), a) == Contains(c, a)
    {
      MaskedContains(c, a);
    }
  }

  /** The same of an IPv6 candidate that does not spell IPv4 addresses. */
  lemma KeptIff6(candidates: seq<Cidr>, ex: seq<Cidr>, i: nat)
    requires i < |candidates| && candidates[i].Prefix? && candidates[i].addr.V6? && Masked(candidates[i]).addr.n6 / 0x1_0000_0000 != 0xffff
    ensures Masked(candidates[i]) in Allowed(candidates, ex) <==>
            && candidates[i].bits > 0 && !IsSpecial(Masked(candidates[i]).addr)
            && forall k, a :: 0 <= k < |ex| && Contains(candidates[i], a) ==> !Contains(ex[k], a)
  {
    ContributionIff(candidates, ex, i, Masked(candidates[i]));
    SameCover(candidates[i], ex);
  }

  /** A candidate that spells IPv4 addresses counts as the IPv4 prefix it spells; one shorter than 96 bits contributes nothing. */
  lemma KeptIffMapped(candidates: seq<Cidr>, ex: seq<Cidr>, i: nat)
    requires i < |candidates| && candidates[i].Prefix? && candidates[i].addr.V6? && Masked(candidates[i]).addr.n6 / 0x1_0000_0000 == 0xffff
    ensures candidates[i].bits < 96 ==> Kept(candidates[i], ex).None?
    ensures candidates[i].bits >= 96 ==>
            var q := Prefix(V4(Masked(candidates[i]).addr.n6 % 0x1_0000_0000), candidates[i].bits - 96);
            q in Allowed(candidates, ex) <==>
            q.bits > 0 && !IsSpecial(q.addr) && forall k, a :: 0 <= k < |ex| && Contains(q, a) ==> !Contains(ex[k], a)
  {
    if candidates[i].bits >= 96 {
      ContributionIff(candidates, ex, i, Prefix(V4(Masked(candidates[i]).addr.n6 % 0x1_0000_0000), candidates[i].bits - 96));
    }
  }

  // ------------------------------------------------------------------ the default list

  /** The IPv4 addresses that are never captured by default: local networks and the public resolvers. */
  predicate Local4(n: U32) {
    || n <= 0x00ff_ffff || 0x7f00_0000 <= n <= 0x7fff_ffff || 0x0a00_0000 <= n <= 0x0aff_ffff || 0xac10_0000 <= n <= 0xac1f_ffff
    || 0xc0a8_0000 <= n <= 0xc0a8_ffff || 0xa9fe_0000 <= n <= 0xa9fe_ffff || 0xe000_0000 <= n
  }

  predicate Resolver4(n: U32) {
    n == 0x0101_0101 || n == 0x0100_0001 || n == 0x0808_0808 || n == 0x0808_0404 || n == 0x0909_0909 || n == 0x9570_7070
  }

  lemma Contains4(base: U32, bits: nat, size: nat, n: U32)
    requires bits <= 32 && size == Pow2(32 - bits) && base % size == 0
    ensures Contains(Prefix(V4(base), bits), V4(n)) <==> base <= n < base + size
  {
    Whole(base, size);
    ContainsRange(Prefix(V4(base), bits), V4(n));
  }

  lemma Whole(base: nat, size: nat)
    requires size > 0 && base % size == 0
    ensures (base / size) * size == base
  {
  }

  lemma LocalAt(n: U32)
    ensures (exists k :: 0 <= k < 9 && Contains(LocalPrefixes()[k], V4(n))) <==> Local4(n)
  {
    var l := LocalPrefixes();
    SmallPowers();
    Contains4(0, 8, 0x100_0000, n);
    Contains4(0x7f00_0000, 8, 0x100_0000, n);
    Contains4(0x0a00_0000, 8, 0x100_0000, n);
    Contains4(0xac10_0000, 12, 0x10_0000, n);
    Contains4(0xc0a8_0000, 16, 0x1_0000, n);
    Contains4(0xa9fe_0000, 16, 0x1_0000, n);
    Contains4(0xe000_0000, 4, 0x1000_0000, n);
    Contains4(0xf000_0000, 4, 0x1000_0000, n);
    Contains4(0xffff_ffff, 32, 1, n);
    assert l[0] == Prefix(V4(0), 8) && l[1] == Prefix(V4(0x7f00_0000), 8) && l[2] == Prefix(V4(0x0a00_0000), 8);
    assert l[3] == Prefix(V4(0xac10_0000), 12) && l[4] == Prefix(V4(0xc0a8_0000), 16) && l[5] == Prefix(V4(0xa9fe_0000), 16);
    assert l[6] == Prefix(V4(0xe000_0000), 4) && l[7] == Prefix(V4(0xf000_0000), 4) && l[8] == Prefix(V4(0xffff_ffff), 32);
  }

  lemma ResolverAt(n: U32)
    ensures (exists k :: 0 <= k < 6 && Contains(BootstrapExcludePrefixes()[k], V4(n))) <==> Resolver4(n)
  {
    var b := BootstrapExcludePrefixes();
    SmallPowers();
    Contains4(0x0101_0101, 32, 1, n);
    Contains4(0x0100_0001, 32, 1, n);
    Contains4(0x0808_0808, 32, 1, n);
    Contains4(0x0808_0404, 32, 1, n);
    Contains4(0x0909_0909, 32, 1, n);
    Contains4(0x9570_7070, 32, 1, n);
    assert b[0] == Prefix(V4(0x0101_0101), 32) && b[1] == Prefix(V4(0x0100_0001), 32) && b[2] == Prefix(V4(0x0808_0808), 32);
    assert b[3] == Prefix(V4(0x0808_0404), 32) && b[4] == Prefix(V4(0x0909_0909), 32) && b[5] == Prefix(V4(0x9570_7070), 32);
  }

  /** By default an IPv4 address is excluded exactly when it is local, multicast or reserved, or a public resolver. */
  lemma DefaultExcludes4(n: U32)
    ensures IsExcluded(V4(n), DefaultExcludePrefixes()) <==> Local4(n) || Resolver4(n)
  {
    var d, l, b := DefaultExcludePrefixes(), LocalPrefixes(), BootstrapExcludePrefixes();
    LocalAt(n);
    ResolverAt(n);
    SpecialRanges4(n);
    if k :| 0 <= k < 9 && Contains(l[k], V4(n)) {
      assert d[k] == l[k];
    }
    if k :| 0 <= k < 6 && Contains(b[k], V4(n)) {
      assert d[14 + k] == b[k];
    }
    if k :| 0 <= k < |d| && Contains(d[k], V4(n)) {
      DefaultEntry(k, n);
    }
  }

  lemma DefaultEntry(k: nat, n: U32)
    requires k < |DefaultExcludePrefixes()| && Contains(DefaultExcludePrefixes()[k], V4(n))
    ensures (k < 9 && Contains(LocalPrefixes()[k], V4(n))) || (14 <= k < 20 && Contains(BootstrapExcludePrefixes()[k - 14], V4(n)))
  {
    var d, l, b := DefaultExcludePrefixes(), LocalPrefixes(), BootstrapExcludePrefixes();
    if k < 14 {
      assert d[k] == l[k];
    } else {
      assert d[k] == b[k - 14];
    }
  }
}
