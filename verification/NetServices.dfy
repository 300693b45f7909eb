/**
  Which network services DNS steering may touch, as offveil-core/internal/dns/system.go decides
  from the name, the hardware port and the device of a service.
 */
module NetServices {
  datatype HwService = HwService(name: string, hardwarePort: string, device: string, disabled: bool)

  const VIRTUAL_PREFIXES: seq<string> := ["utun", "ipsec", "ppp", "gif", "stf", "awdl", "llw", "bridge"]

  const VPN_TOKENS: seq<string> := [
    "vpn", "utun", "ipsec", "l2tp", "pptp", "ikev2", "anyconnect",
    "tailscale", "wireguard", "openvpn", "proton", "mullvad", "nordvpn",
    "warp", "zerotier", "hamachi", "tunnelblick", "viscosity", "cisco"]

  predicate IsSpace(c: char) {
    || '\t' <= c <= '\r' || c == ' ' || c == '\U{0085}' || c == '\U{00A0}' || c == '\U{1680}' || '\U{2000}' <= c <= '\U{200A}'
    || c == '\U{2028}' || c == '\U{2029}' || c == '\U{202F}' || c == '\U{205F}' || c == '\U{3000}'
  }

  function TrimLeft(s: string): string { if s != [] && IsSpace(s[0]) then TrimLeft(s[1..]) else s }

  function TrimRight(s: string): string { if s != [] && IsSpace(s[|s| - 1]) then TrimRight(s[..|s| - 1]) else s }

  function TrimSpace(s: string): string { TrimRight(TrimLeft(s)) }

  function ToLower(s: string): string {
    seq(|s|, i requires 0 <= i < |s| => if 'A' <= s[i] <= 'Z' then s[i] - 'A' + 'a' else s[i])
  }

  predicate Contains(s: string, part: string) { part <= s || (s != [] && Contains(s[1..], part)) }

  function Plain(s: string): string { ToLower(TrimSpace(s)) }

  predicate AnyPrefix(s: string, prefixes: seq<string>) {
    prefixes != [] && (prefixes[0] <= s || AnyPrefix(s, prefixes[1..]))
  }

  predicate AnyPart(s: string, parts: seq<string>) {
    parts != [] && (Contains(s, parts[0]) || AnyPart(s, parts[1..]))
  }

  /** Why a service is left alone; empty when it is not. */
  function SkipReason(s: HwService): string {
    var device := Plain(s.device);
    var blob := Plain(s.name) + " " + Plain(s.hardwarePort);
    if device != "" && AnyPrefix(device, VIRTUAL_PREFIXES) then "virtual:" + s.device
    else if Contains(blob, "thunderbolt bridge") then "bridge"
    else if Contains(blob, "bluetooth") then "bluetooth"
    else if AnyPart(blob, VPN_TOKENS) || AnyPart(device, VPN_TOKENS) then "vpn:" + s.name
    else ""
  }

  predicate Steerable(s: HwService) { !s.disabled && TrimSpace(s.name) != "" && SkipReason(s) == "" }

  /** The services p picks, in order. */
  function Picked(services: seq<HwService>, p: HwService -> bool): seq<HwService> {
    if services == [] then []
    else (if p(services[0]) then [services[0]] else []) + Picked(services[1..], p)
  }

  function Targets(services: seq<HwService>): seq<HwService> { Picked(services, Steerable) }

  predicate Offers(name: string, services: seq<HwService>, p: HwService -> bool) {
    exists s :: s in services && s.name == name && p(s)
  }

  predicate Steered(name: string, services: seq<HwService>) { Offers(name, services, Steerable) }

  predicate Named(name: string, services: seq<HwService>) {
    exists i :: 0 <= i < |services| && services[i].name == name
  }

  lemma {:induction false} PickedExact(services: seq<HwService>, p: HwService -> bool)
    ensures forall s :: s in Picked(services, p) <==> s in services && p(s)
  {
    if services != [] {
      PickedExact(services[1..], p);
      assert services == [services[0]] + services[1..];
    }
  }

  lemma PickedNames(services: seq<HwService>, p: HwService -> bool, name: string)
    ensures Named(name, Picked(services, p)) <==> Offers(name, services, p)
  {
    var all := Picked(services, p);
    PickedExact(services, p);
    if Named(name, all) {
      var k :| 0 <= k < |all| && all[k].name == name;
      assert all[k] in services && p(all[k]);
    }
    if s :| s in services && s.name == name && p(s) {
      assert s in all;
    }
  }

  /** The targets are the enabled, named services that nothing excludes, and no others. */
  lemma TargetsExact(services: seq<HwService>, name: string)
    ensures forall s :: s in Targets(services) <==> s in services && Steerable(s)
    ensures Named(name, Targets(services)) <==> Steered(name, services)
  {
    PickedExact(services, Steerable);
    PickedNames(services, Steerable, name);
  }

  // ------------------------------------------------------------------ what is left alone

  lemma {:induction false} ContainsMeans(s: string, part: string)
    ensures Contains(s, part) <==> exists a, b :: s == a + part + b
  {
    if part <= s {
      assert s == [] + part + s[|part|..];
    } else if s != [] {
      ContainsMeans(s[1..], part);
      if a, b :| s[1..] == a + part + b {
        assert s == ([s[0]] + a) + part + b;
      }
      if a, b :| s == a + part + b {
        assert a == [] ==> s == part + b;
        assert s[1..] == a[1..] + part + b;
      }
    }
  }

  lemma {:induction false} AnyPartMeans(s: string, parts: seq<string>)
    ensures AnyPart(s, parts) <==> exists w :: w in parts && Contains(s, w)
  {
    if parts != [] {
      AnyPartMeans(s, parts[1..]);
      assert parts == [parts[0]] + parts[1..];
      assert parts[0] in parts;
      if w :| w in parts[1..] && Contains(s, w) {
        assert w in parts;
      }
      if w :| w in parts && Contains(s, w) {
        assert w == parts[0] || w in parts[1..];
      }
    }
  }

  lemma {:induction false} AnyPrefixMeans(s: string, prefixes: seq<string>)
    ensures AnyPrefix(s, prefixes) <==> exists w :: w in prefixes && w <= s
  {
    if prefixes != [] {
      AnyPrefixMeans(s, prefixes[1..]);
      assert prefixes == [prefixes[0]] + prefixes[1..];
      assert prefixes[0] in prefixes;
      if w :| w in prefixes[1..] && w <= s {
        assert w in prefixes;
      }
      if w :| w in prefixes && w <= s {
        assert w == prefixes[0] || w in prefixes[1..];
      }
    }
  }

  predicate AllSpace(s: string) { forall i :: 0 <= i < |s| ==> IsSpace(s[i]) }

  lemma {:induction false} TrimLeftMeans(s: string) returns (l: string)
    ensures AllSpace(l) && s == l + TrimLeft(s)
    ensures TrimLeft(s) != "" ==> !IsSpace(TrimLeft(s)[0])
  {
    l := "";
    if s != [] && IsSpace(s[0]) {
      l := TrimLeftMeans(s[1..]);
      l := [s[0]] + l;
    }
  }

  lemma {:induction false} TrimRightMeans(s: string) returns (r: string)
    ensures AllSpace(r) && s == TrimRight(s) + r
    ensures TrimRight(s) != "" ==> !IsSpace(TrimRight(s)[|TrimRight(s)| - 1])
  {
    r := "";
    if s != [] && IsSpace(s[|s| - 1]) {
      r := TrimRightMeans(s[..|s| - 1]);
      r := r + [s[|s| - 1]];
    }
  }

  /** Trimming takes white space off both ends and nothing else. */
  lemma TrimMeans(s: string) returns (l: string, r: string)
    ensures AllSpace(l) && AllSpace(r) && s == l + TrimSpace(s) + r
    ensures TrimSpace(s) != "" ==> !IsSpace(TrimSpace(s)[0]) && !IsSpace(TrimSpace(s)[|TrimSpace(s)| - 1])
  {
    l := TrimLeftMeans(s);
    r := TrimRightMeans(TrimLeft(s));
    assert TrimSpace(s) != "" ==> TrimSpace(s)[0] == TrimLeft(s)[0];
  }

  /**
    A service is steered exactly when it is enabled and named, its device has no virtual prefix, and no
    bridge, Bluetooth or VPN word occurs in its name or port, nor a VPN word in its device; all read
    trimmed and in lower case.
   */
  lemma SteerableIff(s: HwService)
    ensures Steerable(s) <==>
            var device, text := Plain(s.device), Plain(s.name) + " " + Plain(s.hardwarePort);
            && !s.disabled && TrimSpace(s.name) != ""
            && (device == "" || forall w :: w in VIRTUAL_PREFIXES ==> !(w <= device))
            && !(exists a, b :: text == a + "thunderbolt bridge" + b) && !(exists a, b :: text == a + "bluetooth" + b)
            && (forall w :: w in VPN_TOKENS ==> !Contains(text, w) && !Contains(device, w))
  {
    var device, text := Plain(s.device), Plain(s.name) + " " + Plain(s.hardwarePort);
    AnyPrefixMeans(device, VIRTUAL_PREFIXES);
    AnyPartMeans(text, VPN_TOKENS);
    AnyPartMeans(device, VPN_TOKENS);
    ContainsMeans(text, "thunderbolt bridge");
    ContainsMeans(text, "bluetooth");
  }

  /** A VPN service, by name or by device, is left alone. */
  lemma VpnLeftAlone(s: HwService, w: string, a: string, b: string)
    requires w in VPN_TOKENS && (Plain(s.name) + " " + Plain(s.hardwarePort) == a + w + b || Plain(s.device) == a + w + b)
    ensures !Steerable(s)
  {
    SteerableIff(s);
    ContainsMeans(Plain(s.name) + " " + Plain(s.hardwarePort), w);
    ContainsMeans(Plain(s.device), w);
  }

  lemma {:induction false} ContainsShorter(s: string, part: string)
    ensures Contains(s, part) ==> |part| <= |s|
  {
    if s != [] {
      ContainsShorter(s[1..], part);
    }
  }

  lemma {:induction false} TooLong(s: string, parts: seq<string>)
    requires forall p :: p in parts ==> |p| > |s|
    ensures !AnyPart(s, parts)
  {
    if parts != [] {
      assert parts[0] in parts;
      ContainsShorter(s, parts[0]);
      TooLong(s, parts[1..]);
    }
  }

  lemma TokenLengths()
    ensures forall p :: p in VPN_TOKENS ==> |p| >= 3
  {
  }

  /** Names too short for any of the words are steered, if no device says otherwise. */
  lemma ShortSteerable(s: HwService)
    requires !s.disabled && TrimSpace(s.name) != "" && Plain(s.device) == "" && |Plain(s.name)| + |Plain(s.hardwarePort)| < 2
    ensures Steerable(s)
  {
    var blob := Plain(s.name) + " " + Plain(s.hardwarePort);
    TokenLengths();
    TooLong(blob, VPN_TOKENS);
    TooLong("", VPN_TOKENS);
    ContainsShorter(blob, "thunderbolt bridge");
    ContainsShorter(blob, "bluetooth");
  }

  lemma OneLetter(s: HwService, x: string)
    requires s == HwService(x, "", "", false) && |x| == 1 && !IsSpace(x[0])
    ensures Steerable(s)
  {
    assert TrimSpace(x) == x && TrimSpace("") == "";
    ShortSteerable(s);
  }
}
