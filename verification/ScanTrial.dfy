/**
  Which hosts a strategy scan probes and when one trial wins:
  offveil-core/internal/desync/scan.go, target preparation and scanTrial.
 */
module ScanTrial {
  import opened Options

  // ------------------------------------------------------------ target lists

  /** The entries of list that are not empty and not seen before, each once, in order. */
  function Fresh(list: seq<string>, seen: set<string>): (r: seq<string>)
    ensures forall h :: h in r <==> h in list && h != "" && h !in seen
    ensures forall i, j :: 0 <= i < j < |r| ==> r[i] != r[j]
  {
    if list == [] then []
    else if list[0] == "" || list[0] in seen then Fresh(list[1..], seen)
    else [list[0]] + Fresh(list[1..], seen + {list[0]})
  }

  function Elements(list: seq<string>): set<string> { set h | h in list }

  datatype Config = Config(host: string, required: seq<string>, verifyHosts: seq<string>, quorum: int)

  datatype Targets = Targets(required: seq<string>, hosts: seq<string>)

  function FirstHost(cfg: Config): string {
    if cfg.host == "" && cfg.required == [] && cfg.verifyHosts != [] then cfg.verifyHosts[0] else cfg.host
  }

  function Hosts(cfg: Config): seq<string> {
    var h := FirstHost(cfg);
    if h == "" then Fresh(cfg.verifyHosts, {}) else [h] + Fresh(cfg.verifyHosts, {h})
  }

  /** A host is probed once: a required host that is also a verify host is not probed as required. */
  function Prepared(cfg: Config): Targets {
    Targets(Fresh(cfg.required, Elements(Hosts(cfg))), Hosts(cfg))
  }

  predicate Refused(cfg: Config) {
    || (cfg.host == "" && cfg.required == [] && cfg.verifyHosts == [])
    || cfg.quorum < 0 || cfg.quorum > |Hosts(cfg)|
  }

  method FreshLoop(list: seq<string>, seen0: set<string>) returns (r: seq<string>, seen: set<string>)
    ensures r == Fresh(list, seen0)
    ensures seen == seen0 + Elements(r)
  {
    r, seen := [], seen0;
    for i := 0 to |list|
      invariant Fresh(list, seen0) == r + Fresh(list[i..], seen)
      invariant seen == seen0 + Elements(r)
    {
      assert list[i..][1..] == list[i + 1..];
      if list[i] != "" && list[i] !in seen {
        assert r + ([list[i]] + Fresh(list[i + 1..], seen + {list[i]})) == r + [list[i]] + Fresh(list[i + 1..], seen + {list[i]});
        r := r + [list[i]];
        seen := seen + {list[i]};
      }
    }
  }

  /** The hosts a caller names for verification, without the empty one. */
  function Named(cfg: Config): set<string> { set h | h in [cfg.host] + cfg.verifyHosts && h != "" }

  lemma {:induction false} DistinctSize(list: seq<string>)
    requires forall i, j :: 0 <= i < j < |list| ==> list[i] != list[j]
    ensures |Elements(list)| == |list|
  {
    if list != [] {
      DistinctSize(list[1..]);
      assert list[0] !in list[1..];
      assert Elements(list) == {list[0]} + Elements(list[1..]);
    }
  }

  /** Every named host is probed once, the caller's own first; a required host is probed as such only if it is not among them. */
  lemma PreparedExact(cfg: Config)
    ensures forall h :: h in Prepared(cfg).hosts <==> h != "" && (h == cfg.host || h in cfg.verifyHosts)
    ensures forall h :: h in Prepared(cfg).required <==> h != "" && h in cfg.required && h != cfg.host && h !in cfg.verifyHosts
    ensures |Prepared(cfg).hosts| == |Named(cfg)| && (cfg.host != "" ==> Prepared(cfg).hosts != [] && Prepared(cfg).hosts[0] == cfg.host)
    ensures var hosts := Prepared(cfg).hosts; forall i, j :: 0 <= i < j < |hosts| ==> hosts[i] != hosts[j]
    ensures var required := Prepared(cfg).required; forall i, j :: 0 <= i < j < |required| ==> required[i] != required[j]
  {
    var hosts := Hosts(cfg);
    HostsDistinct(cfg);
    DistinctSize(hosts);
    assert forall h :: h in hosts <==> h != "" && (h == cfg.host || h in cfg.verifyHosts);
    assert Elements(hosts) == Named(cfg);
  }

  lemma RefusedMeans(cfg: Config)
    ensures Refused(cfg) <==> (cfg.host == "" && cfg.required == [] && cfg.verifyHosts == []) || cfg.quorum < 0 || cfg.quorum > |Named(cfg)|
  {
    PreparedExact(cfg);
  }

  method PrepareTargets(cfg: Config) returns (r: Option<Targets>)
    ensures r == if Refused(cfg) then None else Some(Prepared(cfg))
    ensures r.None? <==> (cfg.host == "" && cfg.required == [] && cfg.verifyHosts == []) || cfg.quorum < 0 || cfg.quorum > |Named(cfg)|
  {
    RefusedMeans(cfg);
    var host := cfg.host;
    if cfg.host == "" && |cfg.required| == 0 {
      if |cfg.verifyHosts| == 0 {
        return None;
      }
      host := cfg.verifyHosts[0];
    }
    var hosts: seq<string>, seen: set<string> := [], {};
    if host != "" {
      hosts, seen := [host], {host};
    }
    var more;
    more, seen := FreshLoop(cfg.verifyHosts, seen);
    hosts := hosts + more;
    assert hosts == Hosts(cfg);
    assert seen == Elements(hosts);
    if cfg.quorum < 0 || cfg.quorum > |hosts| {
      return None;
    }
    var required;
    required, seen := FreshLoop(cfg.required, seen);
    r := Some(Targets(required, hosts));
  }

  // ------------------------------------------------------------------ a trial

  /** One probe: whether the host opened, and whether the trial was still running when it ended. */
  datatype Probe = Probe(open: bool, inTime: bool)

  /** What a trial saw; its context is read again after all probes ended, and the scan's after that. */
  datatype Trial = Trial(required: seq<Probe>, hosts: seq<Probe>, expired: bool, cancelled: bool)

  /** A context never comes back to life: if it is alive at the end it was alive after every probe. */
  ghost predicate Observed(t: Trial) {
    !t.expired ==>
      && (forall i :: 0 <= i < |t.required| ==> t.required[i].inTime)
      && (forall i :: 0 <= i < |t.hosts| ==> t.hosts[i].inTime)
  }

  function Opened(ps: seq<Probe>): (n: nat)
    ensures n <= |ps|
  {
    if ps == [] then 0 else (if ps[0].open then 1 else 0) + Opened(ps[1..])
  }

  function OpenedInTime(ps: seq<Probe>): (n: nat)
    ensures n <= Opened(ps)
  {
    if ps == [] then 0 else (if ps[0].open && ps[0].inTime then 1 else 0) + OpenedInTime(ps[1..])
  }

  function Needed(quorum: int, hosts: nat): int {
    if quorum <= 0 then hosts else quorum
  }

  /** The winning condition, as one formula. */
  predicate Wins(t: Trial, quorum: int) {
    && OpenedInTime(t.required) == |t.required|
    && (|| (!t.expired && Opened(t.hosts) >= Needed(quorum, |t.hosts|))
        || (!t.cancelled && quorum > 0 && OpenedInTime(t.hosts) >= quorum))
  }

  lemma {:induction false} CountsSnoc(ps: seq<Probe>, p: Probe)
    ensures Opened(ps + [p]) == Opened(ps) + if p.open then 1 else 0
    ensures OpenedInTime(ps + [p]) == OpenedInTime(ps) + if p.open && p.inTime then 1 else 0
  {
    if ps == [] {
      assert ps + [p] == [p];
      assert [p][1..] == [];
    } else {
      assert (ps + [p])[1..] == ps[1..] + [p];
      CountsSnoc(ps[1..], p);
    }
  }

  lemma {:induction false} AllOpened(ps: seq<Probe>)
    ensures Opened(ps) == |ps| <==> forall i :: 0 <= i < |ps| ==> ps[i].open
    ensures OpenedInTime(ps) == |ps| <==> forall i :: 0 <= i < |ps| ==> ps[i].open && ps[i].inTime
  {
    if ps != [] {
      AllOpened(ps[1..]);
      assert forall i :: 1 <= i < |ps| ==> ps[i] == ps[1..][i - 1];
      assert (forall i :: 0 <= i < |ps| ==> ps[i].open) <==> ps[0].open && forall i :: 0 <= i < |ps[1..]| ==> ps[1..][i].open;
      assert (forall i :: 0 <= i < |ps| ==> ps[i].open && ps[i].inTime)
             <==> (ps[0].open && ps[0].inTime && forall i :: 0 <= i < |ps[1..]| ==> ps[1..][i].open && ps[1..][i].inTime);
    }
  }

  lemma {:induction false} AliveCounts(ps: seq<Probe>)
    requires forall i :: 0 <= i < |ps| ==> ps[i].inTime
    ensures OpenedInTime(ps) == Opened(ps)
  {
    if ps != [] {
      AliveCounts(ps[1..]);
    }
  }

  /** The counters of one trial: required and verify successes in time, and verify successes at any time. */
  method Tally(t: Trial) returns (allOpen: bool, passed: nat, timely: nat, requiredSuccess: nat)
    ensures allOpen <==> Opened(t.required) == |t.required| && Opened(t.hosts) == |t.hosts|
    ensures passed == Opened(t.hosts)
    ensures timely == OpenedInTime(t.hosts)
    ensures requiredSuccess == OpenedInTime(t.required)
  {
    allOpen, passed, timely, requiredSuccess := true, 0, 0, 0;
    for i := 0 to |t.required|
      invariant allOpen <==> Opened(t.required[..i]) == i
      invariant requiredSuccess == OpenedInTime(t.required[..i])
    {
      var sig := t.required[i];
      CountsSnoc(t.required[..i], sig);
      assert t.required[..i + 1] == t.required[..i] + [sig];
      if sig.open && sig.inTime {
        requiredSuccess := requiredSuccess + 1;
      }
      if !sig.open {
        allOpen := false;
      }
    }
    assert t.required[..|t.required|] == t.required;
    for i := 0 to |t.hosts|
      invariant allOpen <==> Opened(t.required) == |t.required| && Opened(t.hosts[..i]) == i
      invariant passed == Opened(t.hosts[..i])
      invariant timely == OpenedInTime(t.hosts[..i])
    {
      var sig := t.hosts[i];
      CountsSnoc(t.hosts[..i], sig);
      assert t.hosts[..i + 1] == t.hosts[..i] + [sig];
      if sig.open {
        passed := passed + 1;
      } else {
        allOpen := false;
      }
      if sig.open && sig.inTime {
        timely := timely + 1;
      }
    }
    assert t.hosts[..|t.hosts|] == t.hosts;
  }

  /** The class computation of scanTrial, statement by statement; Scan refuses a quorum above the host count. */
  method Verdict(t: Trial, quorum: int) returns (ok: bool)
    requires quorum <= |t.hosts|
    ensures ok == Wins(t, quorum)
  {
    var passed, timely, requiredSuccess;
    ok, passed, timely, requiredSuccess := Tally(t);
    var need := quorum;
    if need <= 0 {
      need := |t.hosts|;
    }
    var requiredOK := requiredSuccess == |t.required|;
    if passed >= need && requiredOK {
      ok := true;
    }
    if t.expired {
      ok := false;
    }
    var quorumPassed := quorum > 0 && timely >= quorum && requiredOK && !t.cancelled;
    if quorumPassed {
      ok := true;
    }
    if !requiredOK && ok {
      ok := false;
    }
  }

  /** The probes that opened while the trial was running. */
  function Timely(ps: seq<Probe>): set<nat> { set i: nat | i < |ps| && ps[i].open && ps[i].inTime }

  lemma {:induction false} TimelySize(ps: seq<Probe>)
    ensures OpenedInTime(ps) == |Timely(ps)|
  {
    if ps != [] {
      var n := |ps| - 1;
      TimelySize(ps[..n]);
      CountsSnoc(ps[..n], ps[n]);
      assert ps == ps[..n] + [ps[n]];
      assert Timely(ps) == Timely(ps[..n]) + if ps[n].open && ps[n].inTime then {n} else {};
    }
  }

  /**
    Exactly which trials win: every required host opened in time, enough of the others did (all of them
    when no quorum is set), and the trial was alive at its end, or there is a quorum and the scan was.
   */
  lemma WinsIff(t: Trial, quorum: int)
    requires Observed(t)
    ensures Wins(t, quorum) <==>
            && (forall i :: 0 <= i < |t.required| ==> t.required[i].open && t.required[i].inTime)
            && |set i: nat | i < |t.hosts| && t.hosts[i].open && t.hosts[i].inTime| >= (if quorum <= 0 then |t.hosts| else quorum)
            && (!t.expired || (quorum > 0 && !t.cancelled))
  {
    AllOpened(t.required);
    TimelySize(t.hosts);
    assert Timely(t.hosts) == set i: nat | i < |t.hosts| && t.hosts[i].open && t.hosts[i].inTime;
    if !t.expired {
      AliveCounts(t.hosts);
    }
  }

  /** One stalled control does not cost the trial its quorum: two of three opened in time, the third ran to the deadline. */
  lemma StalledControl(t: Trial)
    requires t == Trial([], [Probe(true, true), Probe(true, true), Probe(false, false)], true, false)
    ensures Observed(t) && Wins(t, 2) && !Wins(t, 3)
  {
    assert {0, 1} <= Timely(t.hosts) && Timely(t.hosts) <= {0, 1};
    assert |{0, 1}| == 2;
    WinsIff(t, 2);
    WinsIff(t, 3);
    assert Timely(t.hosts) == set i: nat | i < |t.hosts| && t.hosts[i].open && t.hosts[i].inTime;
  }

  /** A winner opened every probed required host in time, and reached the quorum in time. */
  lemma WinnerOpened(t: Trial, quorum: int)
    requires Observed(t) && Wins(t, quorum)
    ensures forall i :: 0 <= i < |t.required| ==> t.required[i].open && t.required[i].inTime
    ensures OpenedInTime(t.hosts) >= Needed(quorum, |t.hosts|)
  {
    AllOpened(t.required);
    if !t.expired {
      AliveCounts(t.hosts);
    }
  }

  /** The trial probed the prepared targets, position by position. */
  predicate ProbedFor(t: Trial, targets: Targets) {
    |t.required| == |targets.required| && |t.hosts| == |targets.hosts|
  }

  /** Host h was probed and opened before the trial ended. */
  ghost predicate HostOpened(t: Trial, targets: Targets, h: string)
    requires ProbedFor(t, targets)
  {
    || (exists i :: 0 <= i < |targets.required| && targets.required[i] == h && t.required[i].open && t.required[i].inTime)
    || (exists i :: 0 <= i < |targets.hosts| && targets.hosts[i] == h && t.hosts[i].open && t.hosts[i].inTime)
  }

  /** Every winning trial opened every required host the caller named. */
  ghost predicate RequiredGuaranteed(cfg: Config) {
    forall t: Trial, h: string ::
      ProbedFor(t, Prepared(cfg)) && Observed(t) && Wins(t, cfg.quorum) && h in cfg.required && h != ""
      ==> HostOpened(t, Prepared(cfg), h)
  }

  lemma HostsDistinct(cfg: Config)
    ensures var hosts := Hosts(cfg); forall i, j :: 0 <= i < j < |hosts| ==> hosts[i] != hosts[j]
  {
    var h := FirstHost(cfg);
    if h != "" {
      var rest := Fresh(cfg.verifyHosts, {h});
      var hosts := Hosts(cfg);
      forall i, j | 0 <= i < j < |hosts|
        ensures hosts[i] != hosts[j]
      {
        assert hosts[j] == rest[j - 1] && rest[j - 1] in rest;
      }
    }
  }

  /**
    Main result: the guarantee holds exactly when no required host is also a verify host,
    or the quorum asks for all of them.
   */
  lemma RequiredGuaranteedIff(cfg: Config)
    requires !Refused(cfg)
    ensures RequiredGuaranteed(cfg) <==>
            (|| (forall h :: h in cfg.required && h != "" ==> h !in Hosts(cfg))
             || Needed(cfg.quorum, |Hosts(cfg)|) == |Hosts(cfg)|)
  {
    var targets := Prepared(cfg);
    if (forall h :: h in cfg.required && h != "" ==> h !in Hosts(cfg)) || Needed(cfg.quorum, |Hosts(cfg)|) == |Hosts(cfg)| {
      forall t: Trial, h: string |
        ProbedFor(t, targets) && Observed(t) && Wins(t, cfg.quorum) && h in cfg.required && h != ""
        ensures HostOpened(t, targets, h)
      {
        WinnerOpened(t, cfg.quorum);
        if h in targets.hosts {
          AllOpened(t.hosts);
          var i :| 0 <= i < |targets.hosts| && targets.hosts[i] == h;
        } else {
          assert h in targets.required;
          var i :| 0 <= i < |targets.required| && targets.required[i] == h;
        }
      }
    } else {
      var h :| h in cfg.required && h != "" && h in Hosts(cfg);
      MissedRequired(cfg, h);
    }
  }

  lemma {:induction false} AllButOne(n: nat, k: nat)
    requires k < n
    ensures OpenedInTime(seq(n, i => Probe(i != k, true))) == n - 1
    decreases n
  {
    var ps := seq(n, i => Probe(i != k, true));
    if k == n - 1 {
      var front := seq(n - 1, i => Probe(i != k, true));
      assert ps == front + [Probe(false, true)];
      CountsSnoc(front, Probe(false, true));
      AllOpened(front);
    } else {
      var front := seq(n - 1, i => Probe(i != k, true));
      assert ps == front + [Probe(true, true)];
      CountsSnoc(front, Probe(true, true));
      AllButOne(n - 1, k);
    }
  }

  /** A trial in which every host but the one at k opened in time. */
  function MissingOne(required: nat, hosts: nat, k: nat): Trial {
    Trial(seq(required, i => Probe(true, true)), seq(hosts, i => Probe(i != k, true)), false, false)
  }

  lemma MissingOneWins(required: nat, hosts: nat, k: nat, quorum: int)
    requires k < hosts && Needed(quorum, hosts) < hosts
    ensures Wins(MissingOne(required, hosts, k), quorum) && Observed(MissingOne(required, hosts, k))
  {
    var t := MissingOne(required, hosts, k);
    AllOpened(t.required);
    AllButOne(hosts, k);
  }

  /** A required host that is also a verify host can stay closed while the quorum is met by others. */
  lemma MissedRequired(cfg: Config, h: string)
    requires !Refused(cfg) && h in cfg.required && h != "" && h in Hosts(cfg)
    requires Needed(cfg.quorum, |Hosts(cfg)|) != |Hosts(cfg)|
    ensures !RequiredGuaranteed(cfg)
  {
    var targets := Prepared(cfg);
    var k :| 0 <= k < |targets.hosts| && targets.hosts[k] == h;
    var t := MissingOne(|targets.required|, |targets.hosts|, k);
    MissingOneWins(|targets.required|, |targets.hosts|, k, cfg.quorum);
    MissedHost(cfg, t, k);
    assert !HostOpened(t, targets, h);
  }

  lemma MissedHost(cfg: Config, t: Trial, k: nat)
    requires ProbedFor(t, Prepared(cfg)) && k < |Hosts(cfg)| && !t.hosts[k].open
    ensures !HostOpened(t, Prepared(cfg), Hosts(cfg)[k])
  {
    HostsDistinct(cfg);
    assert Hosts(cfg)[k] !in Prepared(cfg).required;
  }
}
