/**
  The selective gateway of offveil-core/internal/tunnel/selective_config.go: a compiler from
  group policy to a first-match rule list. The rule engine is sing-box's: a rule applies when
  all conditions it names hold, sniffing does not end the search, the first other rule decides.
 */
module Gateway {
  import opened Options
  import opened NetAddr
  import opened Exclude

  datatype Network = Tcp | Udp
  datatype Protocol = Dns | Quic | Other

  /** A connection as the router sees it; a SOCKS client may name a host without an address. */
  datatype Conn = Conn(dst: Option<Addr>, domain: Option<string>, network: Network, port: nat, protocol: Protocol)

  datatype Action = Sniff | HijackDns | Drop | Route(outbound: string)

  datatype Rule = Rule(
    cidrs: Option<seq<Cidr>>,
    private: bool,
    suffixes: Option<seq<string>>,
    network: Option<Network>,
    ports: Option<seq<nat>>,
    ipv4Only: bool,
    protocol: Option<Protocol>,
    action: Action)

  const ANY: Rule := Rule(None, false, None, None, None, false, None, Sniff)

  // -------------------------------------------------------------- rule engine

  predicate EndsWith(s: string, tail: string) {
    |tail| <= |s| && s[|s| - |tail|..] == tail
  }

  predicate SuffixMatch(domain: string, suffix: string) {
    if suffix != "" && suffix[0] == '.' then EndsWith(domain, suffix)
    else domain == suffix || EndsWith(domain, "." + suffix)
  }

  predicate DomainMatch(domain: Option<string>, suffixes: seq<string>) {
    domain.Some? && exists i :: 0 <= i < |suffixes| && SuffixMatch(domain.value, suffixes[i])
  }

  predicate InAny(dst: Option<Addr>, cidrs: seq<Cidr>) {
    dst.Some? && exists i :: 0 <= i < |cidrs| && Contains(cidrs[i], dst.value)
  }

  predicate PrivateDst(dst: Option<Addr>) { dst.Some? && IsSpecial(dst.value.Unmap()) }

  predicate Matches(r: Rule, c: Conn) {
    && (r.cidrs.Some? ==> InAny(c.dst, r.cidrs.value))
    && (r.private ==> PrivateDst(c.dst))
    && (r.suffixes.Some? ==> DomainMatch(c.domain, r.suffixes.value))
    && (r.network.Some? ==> c.network == r.network.value)
    && (r.ports.Some? ==> c.port in r.ports.value)
    && (r.ipv4Only ==> c.dst.Some? && c.dst.value.V4?)
    && (r.protocol.Some? ==> c.protocol == r.protocol.value)
  }

  /** First-match evaluation with "direct" as the final outbound. */
  function Evaluate(rules: seq<Rule>, c: Conn): Action {
    if rules == [] then Route("direct")
    else if rules[0].action != Sniff && Matches(rules[0], c) then rules[0].action
    else Evaluate(rules[1..], c)
  }

  // ----------------------------------------------------------------- compiler

  datatype Group = Group(id: string, suffixes: seq<string>)

  /** An interface address of a WARP profile: absent, with a prefix length, or bare text that may not parse. */
  datatype TunnelAddress = Absent | Slashed | Bare(parses: bool)

  datatype Provider = Local | Warp(profile: Option<seq<TunnelAddress>>) | Reality(credentials: bool)

  /** A host and port setting: not given, not readable as such, or given. */
  datatype Endpoint = Unset | Unreadable | Endpoint(host: Addr, port: int)

  datatype Params = Params(
    enableTun: bool,
    tunIsEgress: bool,           // the TUN and the physical interface have the same name
    tunAddress: Option<Cidr>,    // None: not a prefix
    extraCidrs: seq<Cidr>,       // configured exclusions and provider endpoints
    excludeSuffixes: seq<string>,
    quicSuffixes: seq<string>,
    provider: Provider,
    groups: seq<Group>,
    paths: map<string, string>,
    coreDns: Endpoint,           // resolver of the core, asked instead of a public one
    control: Endpoint,           // selector control
    secret: string)
  {
    predicate Remote() { !provider.Local? }
  }

  const CGNAT: Prefix := Prefix(V4(0x6440_0000), 10)

  function RawExclusions(p: Params): seq<Cidr> { DefaultExcludePrefixes() + [CGNAT] + p.extraCidrs }

  /** networkRouteExclusions: masked, without repetition. */
  function Cleaned(raw: seq<Cidr>): seq<Cidr> {
    if raw == [] then []
    else
      var before := Cleaned(raw[..|raw| - 1]);
      var m := Masked(raw[|raw| - 1]);
      if m.BadPrefix? || m in before then before else before + [m]
  }

  function Exclusions(p: Params): seq<Cidr> { Cleaned(RawExclusions(p)) }

  function NetName(n: Network): string { if n == Tcp then "tcp" else "udp" }

  function SelectorTag(group: string, n: Network): string { "sel-" + group + "-" + NetName(n) }

  predicate Usable(g: Group) { g.id != "" && g.suffixes != [] }

  predicate TunOK(p: Params) {
    p.enableTun ==> !p.tunIsEgress && p.tunAddress.Some? && p.tunAddress.value.Prefix? && p.tunAddress.value.addr.V4?
  }

  predicate ProviderOK(provider: Provider) {
    match provider
    case Local => true
    case Warp(profile) => profile.Some? && forall a :: a in profile.value && a.Bare? ==> a.parses
    case Reality(credentials) => credentials
  }

  function RulesFor(g: Group): seq<Rule> {
    if Usable(g) then GroupRule(g, Tcp) + GroupRule(g, Udp) else []
  }

  function GroupRules(groups: seq<Group>): seq<Rule> {
    if groups == [] then [] else RulesFor(groups[0]) + GroupRules(groups[1..])
  }

  function GroupRule(g: Group, n: Network): seq<Rule> {
    [ANY.(suffixes := Some(g.suffixes), network := Some(n), action := Route(SelectorTag(g.id, n)))]
  }

  function WebRule(): Rule {
    ANY.(ipv4Only := true, network := Some(Tcp), ports := Some([80, 443]), action := Route("desync"))
  }

  /** One selector: its tag, the outbound it starts on and those it can be set to. */
  datatype Selector = Selector(tag: string, start: string, offers: seq<string>)

  function OffersOf(n: Network): seq<string> { if n == Tcp then ["desync", "tunnel"] else ["direct", "tunnel"] }

  function SideOf(path: string, n: Network): string {
    if path == "tunnel" then "tunnel" else if n == Tcp then "desync" else "direct"
  }

  function PathOf(paths: map<string, string>, id: string): string {
    if id in paths then paths[id] else ""
  }

  function SelectorsFor(g: Group, paths: map<string, string>): seq<Selector> {
    if Usable(g) then Pair(g.id, paths) else []
  }

  function GroupSelectors(groups: seq<Group>, paths: map<string, string>): seq<Selector> {
    if groups == [] then [] else SelectorsFor(groups[0], paths) + GroupSelectors(groups[1..], paths)
  }

  function Pair(id: string, paths: map<string, string>): seq<Selector> {
    [ Selector(SelectorTag(id, Tcp), SideOf(PathOf(paths, id), Tcp), OffersOf(Tcp)),
      Selector(SelectorTag(id, Udp), SideOf(PathOf(paths, id), Udp), OffersOf(Udp)) ]
  }

  function When(b: bool, r: Rule): seq<Rule> { if b then [r] else [] }

  function DnsRule(): Rule { ANY.(protocol := Some(Dns), action := HijackDns) }

  function SubnetRule(subnet: Cidr): Rule { ANY.(cidrs := Some([Masked(subnet)]), action := Drop) }

  function PrivateRule(): Rule { ANY.(private := true, action := Route("direct")) }

  function CidrRule(cidrs: seq<Cidr>): Rule { ANY.(cidrs := Some(cidrs), action := Route("direct")) }

  function SuffixRule(suffixes: seq<string>): Rule { ANY.(suffixes := Some(suffixes), action := Route("direct")) }

  function QuicRule(suffixes: seq<string>): Rule {
    ANY.(protocol := Some(Quic), suffixes := Some(suffixes), action := Drop)
  }

  function Subnet(p: Params): Cidr { if p.tunAddress.Some? then p.tunAddress.value else BadPrefix }

  /** The fixed rules in front of the group rules. */
  function WithHead(p: Params, rest: seq<Rule>): seq<Rule> {
    [ANY] + ([DnsRule()] + (When(p.enableTun, SubnetRule(Subnet(p))) + ([PrivateRule()] + ([CidrRule(Exclusions(p))]
    + (When(p.excludeSuffixes != [], SuffixRule(p.excludeSuffixes)) + (When(p.quicSuffixes != [], QuicRule(p.quicSuffixes)) + rest))))))
  }

  function Tail(p: Params): seq<Rule> { (if p.Remote() then GroupRules(p.groups) else []) + [WebRule()] }

  function Rules(p: Params): seq<Rule> { WithHead(p, Tail(p)) }

  method NetworkRouteExclusions(p: Params) returns (clean: seq<Cidr>)
    ensures clean == Exclusions(p)
  {
    var raw := RawExclusions(p);
    var seen: set<Cidr> := {};
    clean := [];
    for i := 0 to |raw|
      invariant clean == Cleaned(raw[..i])
      invariant forall m :: m in seen <==> m in clean
    {
      assert raw[..i + 1][..i] == raw[..i];
      var m := Masked(raw[i]);
      if m.Prefix? && m !in seen {
        seen := seen + {m};
        clean := clean + [m];
      }
    }
    assert raw[..|raw|] == raw;
  }

  method FixedRules(p: Params) returns (ok: bool, rules: seq<Rule>)
    ensures ok <==> TunOK(p)
    ensures ok ==> rules == WithHead(p, [])
  {
    rules := [ANY, DnsRule()];
    if p.enableTun {
      if p.tunIsEgress {
        return false, [];
      }
      if p.tunAddress.None? || p.tunAddress.value.BadPrefix? || !p.tunAddress.value.addr.V4? {
        return false, [];
      }
      rules := rules + [SubnetRule(p.tunAddress.value)];
    }
    var exclusions := NetworkRouteExclusions(p);
    rules := rules + [PrivateRule(), CidrRule(exclusions)];
    if |p.excludeSuffixes| > 0 {
      rules := rules + [SuffixRule(p.excludeSuffixes)];
    }
    if |p.quicSuffixes| > 0 {
      rules := rules + [QuicRule(p.quicSuffixes)];
    }
    ok := true;
  }

  lemma HeadAppend(p: Params, rest: seq<Rule>)
    ensures WithHead(p, []) + rest == WithHead(p, rest)
  {
    AppendLast([ANY], [DnsRule()], When(p.enableTun, SubnetRule(Subnet(p))), [PrivateRule()], [CidrRule(Exclusions(p))],
               When(p.excludeSuffixes != [], SuffixRule(p.excludeSuffixes)), When(p.quicSuffixes != [], QuicRule(p.quicSuffixes)), rest);
  }

  lemma AppendLast<T>(a: seq<T>, b: seq<T>, c: seq<T>, d: seq<T>, e: seq<T>, f: seq<T>, g: seq<T>, rest: seq<T>)
    ensures a + (b + (c + (d + (e + (f + (g + [])))))) + rest == a + (b + (c + (d + (e + (f + (g + rest))))))
  {
  }

  function Selectors(p: Params): seq<Selector> { if p.Remote() then GroupSelectors(p.groups, p.paths) else [] }

  function Tags(selectors: seq<Selector>): seq<string> { seq(|selectors|, i requires 0 <= i < |selectors| => selectors[i].tag) }

  /** The tags a rule or a selector may name. */
  function Outbounds(p: Params): seq<string> {
    ["desync", "direct"] + Tags(Selectors(p)) + if p.Remote() then ["tunnel"] else []
  }

  method BuildSelectiveConfig(p: Params) returns (ok: bool, rules: seq<Rule>, selectors: seq<Selector>, outbounds: seq<string>)
    ensures ok <==>
            && (p.enableTun ==> !p.tunIsEgress && p.tunAddress.Some? && p.tunAddress.value.Prefix? && p.tunAddress.value.addr.V4?)
            && !p.coreDns.Unreadable? && (p.coreDns.Endpoint? ==> IsLoopback(p.coreDns.host.Unmap()) && 1 <= p.coreDns.port <= 65535)
            && (p.provider.Warp? ==> p.provider.profile.Some? && forall a :: a in p.provider.profile.value && a.Bare? ==> a.parses)
            && (p.provider.Reality? ==> p.provider.credentials)
            && !p.control.Unreadable? && (p.control.Endpoint? ==> IsLoopback(p.control.host.Unmap()) && p.secret != "")
    ensures ok ==> rules == Rules(p) && selectors == Selectors(p) && outbounds == Outbounds(p)
  {
    outbounds := [];
    ok, rules, selectors := BuildRules(p);
    if !ok {
      return;
    }
    if !p.coreDns.Unset? {
      ok := p.coreDns.Endpoint? && IsLoopback(p.coreDns.host.Unmap()) && p.coreDns.port >= 1 && p.coreDns.port <= 65535;
      if !ok {
        return;
      }
    }
    var provided: seq<string> := [];
    if p.Remote() {
      ok := ProviderReady(p.provider);
      if !ok {
        return;
      }
      provided := ["tunnel"];
    }
    outbounds := ["desync", "direct"] + Tags(selectors) + provided;
    ok := p.control.Unset? || (p.control.Endpoint? && IsLoopback(p.control.host.Unmap()) && p.secret != "");
  }

  method BuildRules(p: Params) returns (ok: bool, rules: seq<Rule>, selectors: seq<Selector>)
    ensures ok <==> TunOK(p)
    ensures ok ==> rules == Rules(p) && selectors == Selectors(p)
  {
    selectors := [];
    ok, rules := FixedRules(p);
    if !ok {
      return;
    }
    var more: seq<Rule> := [];
    if p.Remote() {
      more, selectors := GroupLoop(p.groups, p.paths);
    }
    HeadAppend(p, more + [WebRule()]);
    rules := rules + (more + [WebRule()]);
  }

  /** The refusals of appendNetworkProvider. */
  method ProviderReady(provider: Provider) returns (ok: bool)
    requires !provider.Local?
    ensures ok <==> ProviderOK(provider)
  {
    match provider
    case Warp(profile) =>
      if profile.None? {
        return false;
      }
      for i := 0 to |profile.value|
        invariant forall k :: 0 <= k < i && profile.value[k].Bare? ==> profile.value[k].parses
      {
        var address := profile.value[i];
        if address.Bare? && !address.parses {
          return false;
        }
      }
      return true;
    case Reality(credentials) => return credentials;
  }

  lemma {:induction false} TagListed(groups: seq<Group>, paths: map<string, string>, g: Group, n: Network)
    requires g in groups && Usable(g)
    ensures exists i :: 0 <= i < |GroupSelectors(groups, paths)| && GroupSelectors(groups, paths)[i].tag == SelectorTag(g.id, n)
  {
    var all := GroupSelectors(groups, paths);
    var d := |SelectorsFor(groups[0], paths)|;
    if groups[0] == g {
      var i := if n == Tcp then 0 else 1;
      assert all[i].tag == SelectorTag(g.id, n);
    } else {
      TagListed(groups[1..], paths, g, n);
      var i :| 0 <= i < |GroupSelectors(groups[1..], paths)| && GroupSelectors(groups[1..], paths)[i].tag == SelectorTag(g.id, n);
      assert all[i + d] == GroupSelectors(groups[1..], paths)[i];
    }
  }

  lemma {:induction false} GroupRulesSnoc(groups: seq<Group>, g: Group)
    ensures GroupRules(groups + [g]) == GroupRules(groups) + RulesFor(g)
  {
    if groups == [] {
      assert groups + [g] == [g] && [g][1..] == [];
    } else {
      assert (groups + [g])[1..] == groups[1..] + [g];
      GroupRulesSnoc(groups[1..], g);
    }
  }

  lemma {:induction false} GroupSelectorsSnoc(groups: seq<Group>, g: Group, paths: map<string, string>)
    ensures GroupSelectors(groups + [g], paths) == GroupSelectors(groups, paths) + SelectorsFor(g, paths)
  {
    if groups == [] {
      assert groups + [g] == [g] && [g][1..] == [];
    } else {
      assert (groups + [g])[1..] == groups[1..] + [g];
      GroupSelectorsSnoc(groups[1..], g, paths);
    }
  }

  method GroupLoop(groups: seq<Group>, paths: map<string, string>) returns (rules: seq<Rule>, selectors: seq<Selector>)
    ensures rules == GroupRules(groups)
    ensures selectors == GroupSelectors(groups, paths)
  {
    rules, selectors := [], [];
    for i := 0 to |groups|
      invariant rules == GroupRules(groups[..i])
      invariant selectors == GroupSelectors(groups[..i], paths)
    {
      var g := groups[i];
      assert groups[..i + 1] == groups[..i] + [g];
      GroupRulesSnoc(groups[..i], g);
      GroupSelectorsSnoc(groups[..i], g, paths);
      if g.id == "" || |g.suffixes| == 0 {
        continue;
      }
      selectors := selectors + Pair(g.id, paths);
      rules := rules + (GroupRule(g, Tcp) + GroupRule(g, Udp));
    }
    assert groups[..|groups|] == groups;
  }

  // ------------------------------------------------------------------- policy

  /** The first usable group whose suffixes match the domain; it does not depend on the transport. */
  function FirstGroup(groups: seq<Group>, domain: Option<string>): (r: Option<Group>)
    ensures r.Some? ==> r.value in groups && Usable(r.value) && DomainMatch(domain, r.value.suffixes)
  {
    if groups == [] then None
    else if Usable(groups[0]) && DomainMatch(domain, groups[0].suffixes) then Some(groups[0])
    else FirstGroup(groups[1..], domain)
  }

  predicate OwnSubnet(p: Params, c: Conn) {
    p.enableTun && p.tunAddress.Some? && c.dst.Some? && Contains(p.tunAddress.value, c.dst.value)
  }

  predicate Bypassed(p: Params, c: Conn) {
    PrivateDst(c.dst) || InAny(c.dst, RawExclusions(p)) || DomainMatch(c.domain, p.excludeSuffixes)
  }

  predicate WebTraffic(c: Conn) {
    c.network == Tcp && (c.port == 80 || c.port == 443) && c.dst.Some? && c.dst.value.V4?
  }

  /** Where a connection is meant to go. */
  function Policy(p: Params, c: Conn): Action {
    if c.protocol == Dns then HijackDns
    else if OwnSubnet(p, c) then Drop
    else if Bypassed(p, c) then Route("direct")
    else if c.protocol == Quic && DomainMatch(c.domain, p.quicSuffixes) then Drop
    else match if p.Remote() then FirstGroup(p.groups, c.domain) else None
      case Some(g) => Route(SelectorTag(g.id, c.network))
      case None => Route(if WebTraffic(c) then "desync" else "direct")
  }

  lemma {:induction false} CleanedCovers(raw: seq<Cidr>, a: Addr)
    ensures (exists i :: 0 <= i < |Cleaned(raw)| && Contains(Cleaned(raw)[i], a)) <==> (exists i :: 0 <= i < |raw| && Contains(raw[i], a))
  {
    if raw != [] {
      var n := |raw| - 1;
      var before := raw[..n];
      var m := Masked(raw[n]);
      CleanedCovers(before, a);
      MaskedContains(raw[n], a);
      var out := Cleaned(raw);
      if i :| 0 <= i < |raw| && Contains(raw[i], a) {
        if i < n {
          assert Contains(before[i], a);
          var k :| 0 <= k < |Cleaned(before)| && Contains(Cleaned(before)[k], a);
          assert out[k] == Cleaned(before)[k];
        } else if m in Cleaned(before) {
          var k :| 0 <= k < |Cleaned(before)| && Cleaned(before)[k] == m;
          assert out[k] == m;
        } else {
          assert out[|out| - 1] == m;
        }
      }
      if k :| 0 <= k < |out| && Contains(out[k], a) {
        if k < |Cleaned(before)| {
          assert out[k] == Cleaned(before)[k];
          var i :| 0 <= i < |before| && Contains(before[i], a);
          assert raw[i] == before[i];
        } else {
          assert out[k] == m;
        }
      }
    }
  }

  /** The two rules of each group send both transports to the first group that matches. */
  lemma {:induction false} EvaluateGroups(groups: seq<Group>, rest: seq<Rule>, c: Conn)
    ensures Evaluate(GroupRules(groups) + rest, c)
            == match FirstGroup(groups, c.domain)
               case Some(g) => Route(SelectorTag(g.id, c.network))
               case None => Evaluate(rest, c)
  {
    if groups == [] {
      assert GroupRules(groups) + rest == rest;
    } else {
      EvaluateGroups(groups[1..], rest, c);
      var tail := GroupRules(groups[1..]) + rest;
      assert GroupRules(groups) + rest == RulesFor(groups[0]) + tail;
      EvaluateGroup(groups[0], tail, c);
    }
  }

  lemma EvaluateGroup(g: Group, tail: seq<Rule>, c: Conn)
    ensures Evaluate(RulesFor(g) + tail, c)
            == if Usable(g) && DomainMatch(c.domain, g.suffixes) then Route(SelectorTag(g.id, c.network)) else Evaluate(tail, c)
  {
    if Usable(g) {
      var tcp, udp := GroupRule(g, Tcp)[0], GroupRule(g, Udp)[0];
      assert RulesFor(g) + tail == When(true, tcp) + (When(true, udp) + tail);
      OneRule(true, tcp, When(true, udp) + tail, c);
      OneRule(true, udp, tail, c);
    } else {
      assert RulesFor(g) + tail == tail;
    }
  }

  /** Main result: the emitted rules mean the policy, for every parameter set and every connection. */
  lemma RulesMeanPolicy(p: Params, c: Conn)
    requires TunOK(p)
    ensures Evaluate(Rules(p), c) == Policy(p, c)
  {
    HeadMeansPolicy(p, c, Tail(p));
    EvaluateGroups(p.groups, [WebRule()], c);
    assert [] + [WebRule()] == [WebRule()];
    WebRuleMeans(c);
  }

  lemma WebRuleMeans(c: Conn)
    ensures Evaluate([WebRule()], c) == Route(if WebTraffic(c) then "desync" else "direct")
  {
    assert [WebRule()][1..] == [];
  }

  /** The rules before the groups decide exactly the cases the policy names before the groups. */
  lemma HeadMeansPolicy(p: Params, c: Conn, rest: seq<Rule>)
    requires TunOK(p)
    ensures Evaluate(WithHead(p, rest), c) ==
            if c.protocol == Dns then HijackDns
            else if OwnSubnet(p, c) then Drop
            else if Bypassed(p, c) then Route("direct")
            else if c.protocol == Quic && DomainMatch(c.domain, p.quicSuffixes) then Drop
            else Evaluate(rest, c)
  {
    var r1 := When(p.quicSuffixes != [], QuicRule(p.quicSuffixes)) + rest;
    var r2 := When(p.excludeSuffixes != [], SuffixRule(p.excludeSuffixes)) + r1;
    var r3 := [CidrRule(Exclusions(p))] + r2;
    var r4 := [PrivateRule()] + r3;
    var r5 := When(p.enableTun, SubnetRule(Subnet(p))) + r4;
    OneRule(true, ANY, [DnsRule()] + r5, c);
    OneRule(true, DnsRule(), r5, c);
    OneRule(p.enableTun, SubnetRule(Subnet(p)), r4, c);
    OneRule(true, PrivateRule(), r3, c);
    OneRule(true, CidrRule(Exclusions(p)), r2, c);
    OneRule(p.excludeSuffixes != [], SuffixRule(p.excludeSuffixes), r1, c);
    OneRule(p.quicSuffixes != [], QuicRule(p.quicSuffixes), rest, c);
    ExclusionsMean(p, c);
    TunMeans(p, c);
  }

  lemma OneRule(b: bool, r: Rule, rest: seq<Rule>, c: Conn)
    ensures Evaluate(When(b, r) + rest, c) == if b && r.action != Sniff && Matches(r, c) then r.action else Evaluate(rest, c)
  {
    if b {
      assert ([r] + rest)[1..] == rest;
    } else {
      assert [] + rest == rest;
    }
  }

  lemma ExclusionsMean(p: Params, c: Conn)
    ensures InAny(c.dst, Exclusions(p)) <==> InAny(c.dst, RawExclusions(p))
  {
    if c.dst.Some? {
      CleanedCovers(RawExclusions(p), c.dst.value);
    }
  }

  lemma TunMeans(p: Params, c: Conn)
    requires TunOK(p)
    ensures p.enableTun && Matches(SubnetRule(Subnet(p)), c) <==> OwnSubnet(p, c)
  {
    if p.enableTun && c.dst.Some? {
      var own := [Masked(Subnet(p))];
      MaskedContains(Subnet(p), c.dst.value);
      assert own[0] == Masked(Subnet(p));
    }
  }

  // ------------------------------------------------------------ resolved paths

  /** The outbound an action ends on, given where each selector stands. */
  function Resolve(a: Action, selectors: map<string, string>): string {
    match a
    case Route(o) => if o in selectors then selectors[o] else o
    case _ => ""
  }

  ghost predicate OnlySelectorTags(selectors: map<string, string>) {
    forall t :: t in selectors ==> exists g, n :: t == SelectorTag(g, n)
  }

  lemma TagIsNoOutbound(g: string, n: Network)
    ensures SelectorTag(g, n) != "direct" && SelectorTag(g, n) != "desync" && SelectorTag(g, n) != "tunnel"
  {
    assert SelectorTag(g, n)[0] == 's';
  }

  /** Only the selector of the first matching group can lead to the tunnel. */
  lemma TunnelOnlyThroughGroup(p: Params, c: Conn, selectors: map<string, string>)
    requires TunOK(p) && OnlySelectorTags(selectors)
    requires Resolve(Evaluate(Rules(p), c), selectors) == "tunnel"
    ensures p.Remote() && !Bypassed(p, c) && !OwnSubnet(p, c)
    ensures var g := FirstGroup(p.groups, c.domain);
            && g.Some?
            && SelectorTag(g.value.id, c.network) in selectors
            && selectors[SelectorTag(g.value.id, c.network)] == "tunnel"
  {
    RulesMeanPolicy(p, c);
    forall t | t in selectors
      ensures t != "direct" && t != "desync"
    {
      var g, n :| t == SelectorTag(g, n);
      TagIsNoOutbound(g, n);
    }
    if p.Remote() && FirstGroup(p.groups, c.domain).Some? {
      TagIsNoOutbound(FirstGroup(p.groups, c.domain).value.id, c.network);
    }
  }

  lemma Defined(p: Params, i: nat)
    ensures "desync" in Outbounds(p) && "direct" in Outbounds(p) && (p.Remote() ==> "tunnel" in Outbounds(p))
    ensures i < |Selectors(p)| ==> Selectors(p)[i].tag in Outbounds(p)
  {
    var tags := Tags(Selectors(p));
    assert i < |Selectors(p)| ==> tags[i] in tags;
  }

  /** No connection is sent to an outbound the configuration does not define. */
  lemma NoDanglingTag(p: Params, c: Conn)
    requires TunOK(p)
    ensures Evaluate(Rules(p), c).Route? ==> Evaluate(Rules(p), c).outbound in Outbounds(p)
  {
    RulesMeanPolicy(p, c);
    Defined(p, 0);
    if p.Remote() && FirstGroup(p.groups, c.domain).Some? {
      GroupDefined(p, FirstGroup(p.groups, c.domain).value, c.network);
    }
  }

  lemma GroupDefined(p: Params, g: Group, n: Network)
    requires p.Remote() && g in p.groups && Usable(g)
    ensures SelectorTag(g.id, n) in Outbounds(p)
  {
    TagListed(p.groups, p.paths, g, n);
    var k :| 0 <= k < |Selectors(p)| && Selectors(p)[k].tag == SelectorTag(g.id, n);
    Defined(p, k);
  }

  /** No selector starts on an outbound the configuration does not define. */
  lemma StartsDefined(p: Params, i: nat)
    requires i < |Selectors(p)|
    ensures Selectors(p)[i].start in Outbounds(p)
  {
    Defined(p, i);
    StartIsSide(p.groups, p.paths, i);
  }

  lemma {:induction false} StartIsSide(groups: seq<Group>, paths: map<string, string>, i: nat)
    requires i < |GroupSelectors(groups, paths)|
    ensures GroupSelectors(groups, paths)[i].start in {"desync", "direct", "tunnel"}
  {
    var d := |SelectorsFor(groups[0], paths)|;
    if i >= d {
      StartIsSide(groups[1..], paths, i - d);
    }
  }

  /** A TCP and a UDP connection to the same place meet the same group, whatever was sniffed in them. */
  lemma GroupDecidesBoth(p: Params, tcp: Conn, udp: Conn)
    requires TunOK(p) && tcp.network == Tcp && udp.network == Udp
    requires tcp.dst == udp.dst && tcp.domain == udp.domain && tcp.protocol != Dns && udp.protocol != Dns
    requires (tcp.protocol == Quic || udp.protocol == Quic) ==> !DomainMatch(tcp.domain, p.quicSuffixes)
    requires p.Remote() && FirstGroup(p.groups, tcp.domain).Some? && !OwnSubnet(p, tcp) && !Bypassed(p, tcp)
    ensures exists g :: g in p.groups && Usable(g) &&
                        Evaluate(Rules(p), tcp) == Route(SelectorTag(g.id, Tcp)) &&
                        Evaluate(Rules(p), udp) == Route(SelectorTag(g.id, Udp))
  {
    RulesMeanPolicy(p, tcp);
    RulesMeanPolicy(p, udp);
    var g := FirstGroup(p.groups, tcp.domain).value;
    assert Evaluate(Rules(p), tcp) == Route(SelectorTag(g.id, Tcp));
  }

  /** Different groups and transports never share a selector. */
  lemma TagInjective(g: string, n: Network, h: string, m: Network)
    requires SelectorTag(g, n) == SelectorTag(h, m)
    ensures g == h && n == m
  {
    var s := SelectorTag(g, n);
    assert |s| == 4 + |g| + 4 == 4 + |h| + 4;
    assert s[|s| - 3] == NetName(n)[0] == NetName(m)[0];
    assert s[4..4 + |g|] == g;
    assert SelectorTag(h, m)[4..4 + |h|] == h;
  }
}
