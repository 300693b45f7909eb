/**
  Runtime path switches of offveil-core/internal/tunnel/selective_session.go. A group's TCP
  and UDP each have a selector in another process; a switch is two calls and, when the second
  one fails, a third call that takes the first one back.
 */
module Selectors {
  import opened Options
  import opened Gateway

  /** How a selector call ended; a failed call may still have moved the selector (reading it back failed). */
  datatype Call = Succeeded | FailedKept | FailedMoved

  datatype State = State(
    known: set<string>,              // groups of this gateway
    paths: map<string, string>,      // recorded path of each group
    selectors: map<string, string>,  // where each selector stands
    remote: bool,
    closed: bool)

  datatype Outcome = Outcome(tcp: Call, udp: Call, rollback: Call)

  function Moved(s: State, tag: string, out: string, call: Call): State {
    if call == FailedKept || tag !in s.selectors then s else s.(selectors := s.selectors[tag := out])
  }

  /** A selector that does not exist cannot be set. */
  predicate CallOK(s: State, tag: string, call: Call) { call == Succeeded && tag in s.selectors }

  predicate KnownPath(path: string) { path == "tunnel" || path == "desync" }

  function Opposite(path: string): string { if path == "desync" then "tunnel" else "desync" }

  /** SetGroupPath as a function of the state and of how its calls end. */
  function Switch(s: State, g: string, path: string, o: Outcome): (bool, State) {
    if s.closed || g !in s.known then (false, s)
    else if PathOf(s.paths, g) == path then (true, s)
    else if !s.remote || !KnownPath(path) then (false, s)
    else
      var tcp, udp := SelectorTag(g, Tcp), SelectorTag(g, Udp);
      var s1 := Moved(s, tcp, path, o.tcp);
      if !CallOK(s, tcp, o.tcp) then (false, s1)
      else
        var s2 := Moved(s1, udp, SideOf(path, Udp), o.udp);
        if !CallOK(s1, udp, o.udp) then (false, Moved(s2, tcp, Opposite(path), o.rollback))
        else (true, s2.(paths := s2.paths[g := path]))
  }

  /** The group has its two selectors and both stand on the recorded side. */
  predicate Coupled(s: State, g: string) {
    && SelectorTag(g, Tcp) in s.selectors && SelectorTag(g, Udp) in s.selectors
    && s.selectors[SelectorTag(g, Tcp)] == SideOf(PathOf(s.paths, g), Tcp)
    && s.selectors[SelectorTag(g, Udp)] == SideOf(PathOf(s.paths, g), Udp)
  }

  /** No recorded path other than the two that the gateway knows. */
  predicate PathsKnown(s: State) {
    forall g :: g in s.known ==> KnownPath(PathOf(s.paths, g))
  }

  // ------------------------------------------------------------------ startup

  function StartPath(g: string, remote: bool, asked: map<string, string>): string {
    if remote && PathOf(asked, g) == "tunnel" then "tunnel" else "desync"
  }

  method StartPaths(groups: seq<Group>, remote: bool, asked: map<string, string>) returns (paths: map<string, string>, known: set<string>)
    ensures known == set g | g in groups :: g.id
    ensures paths.Keys == known
    ensures forall id :: id in known ==> paths[id] == StartPath(id, remote, asked)
    ensures forall id :: id in known ==> paths[id] == if remote && id in asked && asked[id] == "tunnel" then "tunnel" else "desync"
  {
    paths, known := map[], {};
    for i := 0 to |groups|
      invariant known == set g | g in groups[..i] :: g.id
      invariant paths.Keys == known
      invariant forall id :: id in known ==> paths[id] == StartPath(id, remote, asked)
    {
      var g := groups[i];
      assert groups[..i + 1] == groups[..i] + [g];
      known := known + {g.id};
      paths := paths[g.id := "desync"];
      if remote && g.id in asked && asked[g.id] == "tunnel" {
        paths := paths[g.id := "tunnel"];
      }
    }
    assert groups[..|groups|] == groups;
  }

  /** The selectors as the gateway starts them from the generated configuration. */
  function Started(list: seq<Selector>): map<string, string> {
    if list == [] then map[] else Started(list[..|list| - 1])[list[|list| - 1].tag := list[|list| - 1].start]
  }

  function StartState(groups: seq<Group>, known: set<string>, paths: map<string, string>): State {
    State(known, paths, Started(GroupSelectors(groups, paths)), true, false)
  }

  lemma {:induction false} StartedMember(list: seq<Selector>, tag: string)
    requires exists i :: 0 <= i < |list| && list[i].tag == tag
    ensures tag in Started(list) && exists i :: 0 <= i < |list| && list[i].tag == tag && Started(list)[tag] == list[i].start
  {
    var n := |list| - 1;
    if list[n].tag != tag {
      var i :| 0 <= i < |list| && list[i].tag == tag;
      assert list[..n][i].tag == tag;
      StartedMember(list[..n], tag);
      var k :| 0 <= k < |list[..n]| && list[..n][k].tag == tag && Started(list[..n])[tag] == list[..n][k].start;
      assert list[k] == list[..n][k];
    }
  }

  /** Every entry of the generated list belongs to a usable group and starts on the side of its path. */
  lemma {:induction false} ListedStart(groups: seq<Group>, paths: map<string, string>, i: nat)
    requires i < |GroupSelectors(groups, paths)|
    ensures var x := GroupSelectors(groups, paths)[i];
            exists g, n :: g in groups && Usable(g) && x == Selector(SelectorTag(g.id, n), SideOf(PathOf(paths, g.id), n), OffersOf(n))
  {
    var all := GroupSelectors(groups, paths);
    var d := |SelectorsFor(groups[0], paths)|;
    if i < d {
      var n := if i == 0 then Tcp else Udp;
      assert all[i] == Selector(SelectorTag(groups[0].id, n), SideOf(PathOf(paths, groups[0].id), n), OffersOf(n));
      assert groups[0] in groups;
    } else {
      ListedStart(groups[1..], paths, i - d);
      assert all[i] == GroupSelectors(groups[1..], paths)[i - d];
    }
  }

  lemma StartSide(groups: seq<Group>, paths: map<string, string>, g: Group, n: Network)
    requires g in groups && Usable(g)
    ensures var sel := Started(GroupSelectors(groups, paths));
            SelectorTag(g.id, n) in sel && sel[SelectorTag(g.id, n)] == SideOf(PathOf(paths, g.id), n)
  {
    var list := GroupSelectors(groups, paths);
    var tag := SelectorTag(g.id, n);
    TagListed(groups, paths, g, n);
    StartedMember(list, tag);
    var i :| 0 <= i < |list| && list[i].tag == tag && Started(list)[tag] == list[i].start;
    ListedStart(groups, paths, i);
    var h, m :| h in groups && Usable(h) && list[i] == Selector(SelectorTag(h.id, m), SideOf(PathOf(paths, h.id), m), OffersOf(m));
    TagInjective(g.id, n, h.id, m);
  }

  /** Startup couples every group that has routing rules, also when a group identifier occurs twice. */
  lemma StartCoupled(groups: seq<Group>, known: set<string>, paths: map<string, string>, g: Group)
    requires g in groups && Usable(g)
    ensures Coupled(StartState(groups, known, paths), g.id)
  {
    StartSide(groups, paths, g, Tcp);
    StartSide(groups, paths, g, Udp);
  }

  /**
    Every generated selector belongs to a group with an identifier and suffixes. That of TCP offers the
    helper and the tunnel, that of UDP the direct way and the tunnel; both start on the tunnel exactly
    when the path asked for is the tunnel, and otherwise on the helper and on the direct way.
   */
  lemma DefaultsOffered(groups: seq<Group>, paths: map<string, string>, i: nat)
    requires i < |GroupSelectors(groups, paths)|
    ensures var x := GroupSelectors(groups, paths)[i];
            exists g :: g in groups && g.id != "" && g.suffixes != [] &&
              var tunnel := g.id in paths && paths[g.id] == "tunnel";
              || (x.tag == "sel-" + g.id + "-tcp" && x.offers == ["desync", "tunnel"] && x.start == if tunnel then "tunnel" else "desync")
              || (x.tag == "sel-" + g.id + "-udp" && x.offers == ["direct", "tunnel"] && x.start == if tunnel then "tunnel" else "direct")
  {
    var x := GroupSelectors(groups, paths)[i];
    ListedStart(groups, paths, i);
    var g, n :| g in groups && Usable(g) && x == Selector(SelectorTag(g.id, n), SideOf(PathOf(paths, g.id), n), OffersOf(n));
    TagText(g.id);
  }

  lemma TagText(g: string)
    ensures SelectorTag(g, Tcp) == "sel-" + g + "-tcp" && SelectorTag(g, Udp) == "sel-" + g + "-udp"
  {
    assert "-" + "tcp" == "-tcp" && "-" + "udp" == "-udp";
  }

  // ------------------------------------------------------------------ switches

  /** Both selectors exist; TCP and UDP are both on the tunnel, or on the helper and on the direct way, as recorded. */
  predicate Together(s: State, g: string) {
    && "sel-" + g + "-tcp" in s.selectors && "sel-" + g + "-udp" in s.selectors
    && if g in s.paths && s.paths[g] == "tunnel"
       then s.selectors["sel-" + g + "-tcp"] == "tunnel" && s.selectors["sel-" + g + "-udp"] == "tunnel"
       else s.selectors["sel-" + g + "-tcp"] == "desync" && s.selectors["sel-" + g + "-udp"] == "direct"
  }

  /** Coupled means exactly that, so a coupled group never has one of TCP and UDP in the tunnel without the other. */
  lemma CoupledMeans(s: State, g: string)
    ensures Coupled(s, g) <==> Together(s, g)
    ensures Coupled(s, g) ==> (s.selectors["sel-" + g + "-tcp"] == "tunnel" <==> s.selectors["sel-" + g + "-udp"] == "tunnel")
    ensures Coupled(s, g) ==> (s.selectors["sel-" + g + "-tcp"] == "tunnel" <==> g in s.paths && s.paths[g] == "tunnel")
  {
    TagText(g);
  }

  /**
    A switch reports success exactly when the session is open, knows the group, and either the path is
    the recorded one or there is a tunnel, the path is one of the two and both selectors could be set.
   */
  lemma SwitchSucceedsIff(s: State, g: string, path: string, o: Outcome)
    ensures Switch(s, g, path, o).0 <==>
            && !s.closed && g in s.known
            && (|| (if g in s.paths then s.paths[g] else "") == path
                || (&& s.remote && (path == "tunnel" || path == "desync") && o.tcp == Succeeded && o.udp == Succeeded
                    && "sel-" + g + "-tcp" in s.selectors && "sel-" + g + "-udp" in s.selectors))
  {
    TagText(g);
  }

  /** A switch that changes the path and succeeds leaves the two selectors on the side asked for. */
  lemma SwitchLands(s: State, g: string, path: string, o: Outcome)
    requires Switch(s, g, path, o).0 && PathOf(s.paths, g) != path
    ensures var t := Switch(s, g, path, o).1;
            && "sel-" + g + "-tcp" in t.selectors && "sel-" + g + "-udp" in t.selectors && g in t.paths && t.paths[g] == path
            && (path == "tunnel" || path == "desync")
            && t.selectors["sel-" + g + "-tcp"] == path && t.selectors["sel-" + g + "-udp"] == if path == "tunnel" then "tunnel" else "direct"
  {
    TagText(g);
    DistinctTags(g);
  }

  /** A switch never touches another group. */
  lemma SwitchFrame(s: State, g: string, path: string, o: Outcome, h: string)
    requires h != g
    ensures var s' := Switch(s, g, path, o).1;
            && PathOf(s'.paths, h) == PathOf(s.paths, h)
            && (forall n :: SelectorTag(h, n) in s'.selectors <==> SelectorTag(h, n) in s.selectors)
            && (forall n :: SelectorTag(h, n) in s.selectors ==> s'.selectors[SelectorTag(h, n)] == s.selectors[SelectorTag(h, n)])
            && (Coupled(s', h) <==> Coupled(s, h))
  {
    forall n, m
      ensures SelectorTag(h, n) != SelectorTag(g, m)
    {
      if SelectorTag(h, n) == SelectorTag(g, m) {
        TagInjective(h, n, g, m);
      }
    }
  }

  /**
    A call that returns nil leaves the pair on the recorded side, equal to the requested path,
    exactly when the recorded path had to be changed or the pair was coupled before: the early
    return trusts the record.
   */
  lemma NilReturnIff(s: State, g: string, path: string, o: Outcome)
    requires Switch(s, g, path, o).0
    ensures var s' := Switch(s, g, path, o).1;
            && PathOf(s'.paths, g) == path
            && (Coupled(s', g) <==> PathOf(s.paths, g) != path || Coupled(s, g))
  {
    DistinctTags(g);
  }

  lemma DistinctTags(g: string)
    ensures SelectorTag(g, Tcp) != SelectorTag(g, Udp)
  {
    if SelectorTag(g, Tcp) == SelectorTag(g, Udp) {
      TagInjective(g, Tcp, g, Udp);
    }
  }

  /** The failed attempt took back what it had moved. */
  predicate Clean(o: Outcome) {
    if o.tcp != Succeeded then o.tcp == FailedKept
    else o.udp == Succeeded || (o.udp == FailedKept && o.rollback != FailedKept)
  }

  /** A failed switch of a coupled pair leaves it on the previous side exactly when its calls ended cleanly. */
  lemma FailedSwitchIff(s: State, g: string, path: string, o: Outcome)
    requires PathsKnown(s) && Coupled(s, g) && !Switch(s, g, path, o).0
    requires !s.closed && g in s.known && s.remote && KnownPath(path)
    ensures var s' := Switch(s, g, path, o).1;
            && s'.paths == s.paths
            && (Coupled(s', g) <==> Clean(o))
  {
    DistinctTags(g);
  }

  datatype Request = Request(group: string, path: string, outcome: Outcome)

  function Run(s: State, rs: seq<Request>): State {
    if rs == [] then s
    else
      var last := rs[|rs| - 1];
      Switch(Run(s, rs[..|rs| - 1]), last.group, last.path, last.outcome).1
  }

  lemma SwitchKeeps(s: State, g: string, path: string, o: Outcome)
    requires PathsKnown(s)
    ensures var s' := Switch(s, g, path, o).1;
            PathsKnown(s') && s'.known == s.known && s'.closed == s.closed && s'.remote == s.remote
  {
  }

  /** This selector of the group exists and stands on the recorded side. */
  predicate On(s: State, g: string, n: Network) {
    SelectorTag(g, n) in s.selectors && s.selectors[SelectorTag(g, n)] == SideOf(PathOf(s.paths, g), n)
  }

  /** The request gets as far as calling the selectors of g. */
  predicate Reaches(s: State, r: Request, g: string) {
    r.group == g && !s.closed && g in s.known && s.remote && KnownPath(r.path) && PathOf(s.paths, g) != r.path
  }

  predicate Moves(s: State, r: Request, g: string, n: Network) {
    Reaches(s, r, g) && if n == Tcp then r.outcome.tcp != FailedKept else r.outcome.tcp == Succeeded && r.outcome.udp != FailedKept
  }

  /** Where a request that moved the selector left it: on the side that is recorded afterwards. */
  predicate EndsOn(o: Outcome, n: Network) {
    o.tcp == Succeeded && if n == Tcp then o.udp == Succeeded || o.rollback != FailedKept else o.udp == Succeeded
  }

  lemma StepOn(s: State, r: Request, g: string, n: Network)
    requires PathsKnown(s) && SelectorTag(g, Tcp) in s.selectors && SelectorTag(g, Udp) in s.selectors
    ensures var s' := Switch(s, r.group, r.path, r.outcome).1;
            && SelectorTag(g, Tcp) in s'.selectors && SelectorTag(g, Udp) in s'.selectors
            && (On(s', g, n) <==> if Moves(s, r, g, n) then EndsOn(r.outcome, n) else On(s, g, n))
  {
    if r.group != g {
      SwitchFrame(s, r.group, r.path, r.outcome, g);
    } else if Reaches(s, r, g) {
      ReachOn(s, r, g, n);
    }
  }

  lemma ReachOn(s: State, r: Request, g: string, n: Network)
    requires KnownPath(PathOf(s.paths, g)) && SelectorTag(g, Tcp) in s.selectors && SelectorTag(g, Udp) in s.selectors && Reaches(s, r, g)
    ensures var s' := Switch(s, g, r.path, r.outcome).1;
            && SelectorTag(g, Tcp) in s'.selectors && SelectorTag(g, Udp) in s'.selectors
            && (On(s', g, n) <==> if Moves(s, r, g, n) then EndsOn(r.outcome, n) else On(s, g, n))
  {
    DistinctTags(g);
  }

  predicate MovesAt(s: State, rs: seq<Request>, i: nat, g: string, n: Network)
    requires i < |rs|
  {
    Moves(Run(s, rs[..i]), rs[i], g, n)
  }

  /** No request moved this selector of g, or the last one that did left it on the recorded side. */
  ghost predicate LastMoveOn(s: State, rs: seq<Request>, g: string, n: Network) {
    forall i :: 0 <= i < |rs| && MovesAt(s, rs, i, g, n) && (forall j :: i < j < |rs| ==> !MovesAt(s, rs, j, g, n)) ==> EndsOn(rs[i].outcome, n)
  }

  lemma LastMoveStep(s: State, rs: seq<Request>, r: Request, g: string, n: Network)
    ensures LastMoveOn(s, rs + [r], g, n) <==> if Moves(Run(s, rs), r, g, n) then EndsOn(r.outcome, n) else LastMoveOn(s, rs, g, n)
  {
    var all, k := rs + [r], |rs|;
    assert all[..k] == rs && all[k] == r;
    assert MovesAt(s, all, k, g, n) <==> Moves(Run(s, rs), r, g, n);
    forall i | 0 <= i < k
      ensures MovesAt(s, all, i, g, n) <==> MovesAt(s, rs, i, g, n)
    {
      assert all[..i] == rs[..i] && all[i] == rs[i];
    }
    if !MovesAt(s, all, k, g, n) && LastMoveOn(s, all, g, n) {
      forall i | 0 <= i < k && MovesAt(s, rs, i, g, n) && (forall j :: i < j < k ==> !MovesAt(s, rs, j, g, n))
        ensures EndsOn(rs[i].outcome, n)
      {
        assert MovesAt(s, all, i, g, n);
        assert all[i] == rs[i];
      }
    }
    if !MovesAt(s, all, k, g, n) && LastMoveOn(s, rs, g, n) {
      forall i | 0 <= i < |all| && MovesAt(s, all, i, g, n) && (forall j :: i < j < |all| ==> !MovesAt(s, all, j, g, n))
        ensures EndsOn(all[i].outcome, n)
      {
        assert i < k && MovesAt(s, rs, i, g, n);
        forall j | i < j < k
          ensures !MovesAt(s, rs, j, g, n)
        {
          assert !MovesAt(s, all, j, g, n);
        }
        assert all[i] == rs[i];
      }
    }
  }

  lemma {:induction false} RunOn(s: State, rs: seq<Request>, g: string, n: Network)
    requires PathsKnown(s) && Coupled(s, g)
    ensures PathsKnown(Run(s, rs)) && SelectorTag(g, Tcp) in Run(s, rs).selectors && SelectorTag(g, Udp) in Run(s, rs).selectors
    ensures On(Run(s, rs), g, n) <==> LastMoveOn(s, rs, g, n)
  {
    if rs != [] {
      var init, r := rs[..|rs| - 1], rs[|rs| - 1];
      assert rs == init + [r];
      RunOn(s, init, g, n);
      LastMoveStep(s, init, r, g, n);
      SwitchKeeps(Run(s, init), r.group, r.path, r.outcome);
      StepOn(Run(s, init), r, g, n);
    }
  }

  /**
    Main result over any series of switches, in any order, on any groups and with any ends: a group
    that started coupled is coupled afterwards exactly when, for each of its two selectors, the last
    request of this group that moved the selector left it on the recorded side.
   */
  lemma RunCoupledIff(s: State, rs: seq<Request>, g: string)
    requires PathsKnown(s) && Coupled(s, g)
    ensures Coupled(Run(s, rs), g) <==> LastMoveOn(s, rs, g, Tcp) && LastMoveOn(s, rs, g, Udp)
  {
    RunOn(s, rs, g, Tcp);
    RunOn(s, rs, g, Udp);
  }

  /** Where the failed requests of this group took back what they moved, its traffic is never split. */
  lemma RunCoupled(s: State, rs: seq<Request>, g: string)
    requires PathsKnown(s) && Coupled(s, g)
    requires forall i :: 0 <= i < |rs| && rs[i].group == g ==> Clean(rs[i].outcome)
    ensures Coupled(Run(s, rs), g)
  {
    RunCoupledIff(s, rs, g);
  }

  /** A failed switch can also put a split pair together again, by taking the TCP selector back. */
  lemma FailureRecouples(s: State, g: string)
    requires PathOf(s.paths, g) == "desync" && Coupled(s, g) && g in s.known && s.remote && !s.closed
    ensures var s1 := Switch(s, g, "tunnel", Outcome(FailedMoved, Succeeded, Succeeded));
            var s2 := Switch(s1.1, g, "tunnel", Outcome(Succeeded, FailedKept, Succeeded));
            !s1.0 && !Coupled(s1.1, g) && !s2.0 && Coupled(s2.1, g)
  {
    DistinctTags(g);
  }

  /** Without clean ends the record can lie: two calls, the second returns nil, and the pair is split. */
  lemma SplitPair(s: State, g: string)
    requires PathOf(s.paths, g) == "desync" && Coupled(s, g) && g in s.known && s.remote && !s.closed
    ensures var s1 := Switch(s, g, "tunnel", Outcome(Succeeded, FailedKept, FailedKept));
            var s2 := Switch(s1.1, g, "desync", Outcome(Succeeded, Succeeded, Succeeded));
            && !s1.0 && s2.0
            && s2.1.selectors[SelectorTag(g, Tcp)] == "tunnel" && s2.1.selectors[SelectorTag(g, Udp)] == "direct"
  {
    DistinctTags(g);
  }

  class SelectiveSession {
    const known: set<string>
    const remote: bool
    var paths: map<string, string>
    var selectors: map<string, string>  // held by the gateway process
    var closed: bool

    function View(): State
      reads this
    {
      State(known, paths, selectors, remote, closed)
    }

    constructor (groups: seq<Group>, remote: bool, asked: map<string, string>)
      ensures View().known == (set g | g in groups :: g.id) && this.remote == remote && !closed && PathsKnown(View())
      ensures forall g :: g in groups ==> PathOf(paths, g.id) == if remote && g.id in asked && asked[g.id] == "tunnel" then "tunnel" else "desync"
      ensures remote ==> forall g :: g in groups && g.id != "" && g.suffixes != [] ==> Coupled(View(), g.id)
    {
      var started, ids := StartPaths(groups, remote, asked);
      this.known, this.remote, this.paths := ids, remote, started;
      this.selectors := if remote then Started(GroupSelectors(groups, started)) else map[];
      this.closed := false;
      new;
      if remote {
        forall g | g in groups && Usable(g)
          ensures Coupled(View(), g.id)
        {
          StartCoupled(groups, ids, started, g);
        }
      }
    }

    /** Sets a selector and reads it back; only success is certain. */
    method SelectOutbound(tag: string, out: string) returns (ok: bool, ghost call: Call)
      modifies this`selectors
      ensures View() == Moved(old(View()), tag, out, call)
      ensures ok == CallOK(old(View()), tag, call)
    {
      var sent: bool := *;
      var readBack: bool := *;
      call := if sent && readBack then Succeeded else if sent then FailedMoved else FailedKept;
      ok := sent && readBack && tag in selectors;
      if sent && tag in selectors {
        selectors := selectors[tag := out];
      }
    }

    method SetGroupPath(group: string, path: string) returns (ok: bool, ghost o: Outcome)
      modifies this`selectors, this`paths
      ensures (ok, View()) == Switch(old(View()), group, path, o)
      ensures ok && old(PathOf(paths, group)) != path ==>
                && "sel-" + group + "-tcp" in selectors && selectors["sel-" + group + "-tcp"] == path
                && "sel-" + group + "-udp" in selectors && selectors["sel-" + group + "-udp"] == (if path == "tunnel" then "tunnel" else "direct")
    {
      ghost var was := View();
      o := Outcome(Succeeded, Succeeded, Succeeded);
      if closed {
        return false, o;
      }
      if group !in known {
        return false, o;
      }
      if PathOf(paths, group) == path {
        return true, o;
      }
      if !remote {
        return false, o;
      }
      var udpPath := "direct";
      if path == "tunnel" {
        udpPath := "tunnel";
      } else if path != "desync" {
        return false, o;
      }
      var tcpOK, tcp := SelectOutbound(SelectorTag(group, Tcp), path);
      if !tcpOK {
        return false, Outcome(tcp, Succeeded, Succeeded);
      }
      var udpOK, udp := SelectOutbound(SelectorTag(group, Udp), udpPath);
      if !udpOK {
        var previous := "desync";
        if path == "desync" {
          previous := "tunnel";
        }
        var _, back := SelectOutbound(SelectorTag(group, Tcp), previous);
        return false, Outcome(tcp, udp, back);
      }
      paths := paths[group := path];
      SwitchLands(was, group, path, Outcome(tcp, udp, Succeeded));
      return true, Outcome(tcp, udp, Succeeded);
    }

    method Close()
      modifies this`closed
      ensures View() == old(View()).(closed := true)
    {
      closed := true;
    }
  }
}
