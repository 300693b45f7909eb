/**
  Where the generated rules of the selective gateway send a connection, case by case and in plain
  terms: addresses as numbers, names as text, outbounds by their tag.
 */
module GatewayRouting {
  import opened Options
  import opened NetAddr
  import opened Exclude
  import opened ExcludeExact
  import opened Gateway

  // ------------------------------------------------------------------------- names

  /** The name itself or a name below it; a suffix with a leading dot matches only names below. */
  ghost predicate Below(domain: string, suffix: string) {
    if suffix != "" && suffix[0] == '.' then exists x :: domain == x + suffix
    else domain == suffix || exists x :: domain == x + ("." + suffix)
  }

  lemma EndsMeans(s: string, tail: string)
    ensures EndsWith(s, tail) <==> exists x :: s == x + tail
  {
    if EndsWith(s, tail) {
      assert s == s[..|s| - |tail|] + tail;
    }
    if x :| s == x + tail {
      assert s[|s| - |tail|..] == tail;
    }
  }

  lemma SuffixMeans(domain: string, suffix: string)
    ensures SuffixMatch(domain, suffix) <==> Below(domain, suffix)
  {
    EndsMeans(domain, suffix);
    EndsMeans(domain, "." + suffix);
  }

  ghost predicate BelowAny(domain: Option<string>, suffixes: seq<string>) {
    domain.Some? && exists s :: s in suffixes && Below(domain.value, s)
  }

  lemma DomainMeans(domain: Option<string>, suffixes: seq<string>)
    ensures DomainMatch(domain, suffixes) <==> BelowAny(domain, suffixes)
  {
    if domain.Some? {
      forall s
        ensures SuffixMatch(domain.value, s) <==> Below(domain.value, s)
      {
        SuffixMeans(domain.value, s);
      }
      if i :| 0 <= i < |suffixes| && SuffixMatch(domain.value, suffixes[i]) {
        assert suffixes[i] in suffixes;
      }
      if s :| s in suffixes && Below(domain.value, s) {
        var i :| 0 <= i < |suffixes| && suffixes[i] == s;
        assert SuffixMatch(domain.value, suffixes[i]);
      }
    }
  }

  // --------------------------------------------------------------------- addresses

  /** The IPv4 destinations that always go direct: local ones, public resolvers, carrier-grade NAT, and configured exclusions. */
  predicate Exempt4(p: Params, n: U32) {
    || Local4(n) || Resolver4(n) || 0x6440_0000 <= n <= 0x647f_ffff
    || exists k :: 0 <= k < |p.extraCidrs| && Contains(p.extraCidrs[k], V4(n))
  }

  lemma CarrierRange(n: U32)
    ensures Contains(CGNAT, V4(n)) <==> 0x6440_0000 <= n <= 0x647f_ffff
  {
    SmallPowers();
    assert Pow2(22) == 4 * Pow2(20);
    Contains4(0x6440_0000, 10, 0x40_0000, n);
  }

  lemma DefaultsMean(n: U32)
    ensures IsSpecial(V4(n)) || InAny(Some(V4(n)), DefaultExcludePrefixes()) <==> Local4(n) || Resolver4(n)
  {
    DefaultExcludes4(n);
  }

  lemma InThree(dst: Option<Addr>, a: seq<Cidr>, b: Cidr, c: seq<Cidr>)
    ensures InAny(dst, a + [b] + c) <==> InAny(dst, a) || InAny(dst, [b]) || InAny(dst, c)
  {
    if dst.Some? {
      var all := a + [b] + c;
      if i :| 0 <= i < |a| && Contains(a[i], dst.value) {
        assert all[i] == a[i];
      }
      if Contains(b, dst.value) {
        assert all[|a|] == b && [b][0] == b;
      }
      if i :| 0 <= i < |c| && Contains(c[i], dst.value) {
        assert all[|a| + 1 + i] == c[i];
      }
      if i :| 0 <= i < |all| && Contains(all[i], dst.value) {
        assert all[i] == if i < |a| then a[i] else if i == |a| then b else c[i - |a| - 1];
      }
    }
  }

  lemma BypassedMeans4(p: Params, c: Conn, n: U32)
    requires c.dst == Some(V4(n))
    ensures Bypassed(p, c) <==> Exempt4(p, n) || BelowAny(c.domain, p.excludeSuffixes)
  {
    InThree(c.dst, DefaultExcludePrefixes(), CGNAT, p.extraCidrs);
    CarrierRange(n);
    DefaultsMean(n);
    DomainMeans(c.domain, p.excludeSuffixes);
    assert InAny(c.dst, [CGNAT]) <==> Contains(CGNAT, V4(n)) by {
      assert [CGNAT][0] == CGNAT;
    }
  }

  lemma BypassedMeansName(p: Params, c: Conn)
    requires c.dst.None?
    ensures Bypassed(p, c) <==> BelowAny(c.domain, p.excludeSuffixes)
  {
    DomainMeans(c.domain, p.excludeSuffixes);
  }

  // ------------------------------------------------------------------------- routes

  /** A configured exclusion or provider endpoint always goes direct, in either family, unless the gateway's own subnet holds it. */
  lemma ExclusionsGoDirect(p: Params, c: Conn, k: nat, a: Addr)
    requires TunOK(p) && c.protocol != Dns && c.dst == Some(a) && k < |p.extraCidrs| && Contains(p.extraCidrs[k], a)
    requires !p.enableTun || p.tunAddress.None? || !Contains(p.tunAddress.value, a)
    ensures Evaluate(Rules(p), c) == Route("direct")
  {
    RulesMeanPolicy(p, c);
    InThree(c.dst, DefaultExcludePrefixes(), CGNAT, p.extraCidrs);
  }

  /** The gateway's own subnet is dropped, DNS excepted. */
  lemma OwnSubnetDropped(p: Params, c: Conn, a: Addr)
    requires TunOK(p) && c.dst == Some(a)
    ensures c.protocol == Dns ==> Evaluate(Rules(p), c) == HijackDns
    ensures c.protocol != Dns && p.enableTun && p.tunAddress.Some? && Contains(p.tunAddress.value, a) ==> Evaluate(Rules(p), c) == Drop
  {
    RulesMeanPolicy(p, c);
  }

  /** An ordinary IPv4 destination, or none: not DNS, not the gateway's own subnet, nothing that goes direct in any case. */
  ghost predicate Ordinary(p: Params, c: Conn) {
    && c.protocol != Dns && !BelowAny(c.domain, p.excludeSuffixes)
    && match c.dst
       case None => true
       case Some(a) => a.V4? && !Exempt4(p, a.n) && (!p.enableTun || p.tunAddress.None? || !Contains(p.tunAddress.value, a))
  }

  lemma OrdinaryMeans(p: Params, c: Conn)
    requires Ordinary(p, c)
    ensures !Bypassed(p, c) && !OwnSubnet(p, c) && c.protocol != Dns
  {
    if c.dst.Some? {
      BypassedMeans4(p, c, c.dst.value.n);
    } else {
      BypassedMeansName(p, c);
    }
  }

  /** Everything in the exempt ranges goes direct. */
  lemma ExemptGoDirect(p: Params, c: Conn, n: U32)
    requires TunOK(p) && c.protocol != Dns && c.dst == Some(V4(n)) && (Exempt4(p, n) || BelowAny(c.domain, p.excludeSuffixes))
    requires !p.enableTun || p.tunAddress.None? || !Contains(p.tunAddress.value, V4(n))
    ensures Evaluate(Rules(p), c) == Route("direct")
  {
    RulesMeanPolicy(p, c);
    BypassedMeans4(p, c, n);
  }

  lemma {:induction false} FirstMeans(groups: seq<Group>, domain: Option<string>, k: nat)
    requires k < |groups| && groups[k].id != "" && BelowAny(domain, groups[k].suffixes)
    requires forall j :: 0 <= j < k && groups[j].id != "" ==> !BelowAny(domain, groups[j].suffixes)
    ensures FirstGroup(groups, domain) == Some(groups[k])
  {
    DomainMeans(domain, groups[0].suffixes);
    if k > 0 {
      assert forall j :: 0 <= j < k - 1 ==> groups[1..][j] == groups[j + 1];
      FirstMeans(groups[1..], domain, k - 1);
    }
  }

  lemma {:induction false} NoFirst(groups: seq<Group>, domain: Option<string>)
    requires forall j :: 0 <= j < |groups| && groups[j].id != "" ==> !BelowAny(domain, groups[j].suffixes)
    ensures FirstGroup(groups, domain).None?
  {
    if groups != [] {
      DomainMeans(domain, groups[0].suffixes);
      assert forall j :: 0 <= j < |groups| - 1 ==> groups[1..][j] == groups[j + 1];
      NoFirst(groups[1..], domain);
    }
  }

  /**
    With a tunnel provider, an ordinary connection to a name of a group goes to the selector of the
    first such group, that of TCP or of UDP, unless it is QUIC that must not pass.
   */
  lemma GroupRouted(p: Params, c: Conn, k: nat)
    requires TunOK(p) && Ordinary(p, c) && !p.provider.Local? && k < |p.groups| && p.groups[k].id != ""
    requires BelowAny(c.domain, p.groups[k].suffixes)
    requires forall j :: 0 <= j < k && p.groups[j].id != "" ==> !BelowAny(c.domain, p.groups[j].suffixes)
    ensures Evaluate(Rules(p), c) ==
            if c.protocol == Quic && BelowAny(c.domain, p.quicSuffixes) then Drop
            else Route("sel-" + p.groups[k].id + (if c.network == Tcp then "-tcp" else "-udp"))
  {
    RulesMeanPolicy(p, c);
    OrdinaryMeans(p, c);
    FirstMeans(p.groups, c.domain, k);
    DomainMeans(c.domain, p.quicSuffixes);
    TagOf(p.groups[k].id, c.network);
  }

  lemma TagOf(id: string, n: Network)
    ensures SelectorTag(id, n) == "sel-" + id + (if n == Tcp then "-tcp" else "-udp")
  {
    assert "-" + "tcp" == "-tcp" && "-" + "udp" == "-udp";
  }

  /** Any other ordinary connection goes to the helper if it is web traffic over IPv4, and direct if not. */
  lemma RestRouted(p: Params, c: Conn)
    requires TunOK(p) && Ordinary(p, c)
    requires p.provider.Local? || forall j :: 0 <= j < |p.groups| && p.groups[j].id != "" ==> !BelowAny(c.domain, p.groups[j].suffixes)
    ensures Evaluate(Rules(p), c) ==
            if c.protocol == Quic && BelowAny(c.domain, p.quicSuffixes) then Drop
            else if c.network == Tcp && (c.port == 80 || c.port == 443) && c.dst.Some? then Route("desync") else Route("direct")
  {
    RulesMeanPolicy(p, c);
    OrdinaryMeans(p, c);
    DomainMeans(c.domain, p.quicSuffixes);
    if !p.provider.Local? {
      NoFirst(p.groups, c.domain);
    }
  }
}
