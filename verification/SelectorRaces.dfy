/**
  Concurrent path switches (SetGroupPath in offveil-core/internal/tunnel/selective_session.go). The
  session lock is held only while a call reads the record and while it writes it; the selector calls
  in between interleave with those of other calls in any way, on the same group or on others.
 */
module SelectorRaces {
  import opened Options
  import opened Gateway
  import opened Selectors

  /** A call between two of its steps. */
  datatype Phase =
    | AtTcp(group: string, path: string)
    | AtUdp(group: string, path: string)
    | AtBack(group: string, path: string)
    | AtRecord(group: string, path: string)

  datatype Net = Net(s: State, calls: map<nat, Phase>)

  datatype Event =
    | Enter(i: nat, group: string, path: string)
    | SetTcp(i: nat, call: Call)
    | SetUdp(i: nat, call: Call)
    | TakeBack(i: nat, call: Call)
    | WriteRecord(i: nat)
    | Shut

  /** The call gets past its checks and will touch the selectors. */
  predicate Proceeds(s: State, group: string, path: string) {
    !s.closed && group in s.known && PathOf(s.paths, group) != path && s.remote && KnownPath(path)
  }

  predicate Enabled(n: Net, e: Event) {
    match e
    case Enter(i, _, _) => i !in n.calls
    case SetTcp(i, _) => i in n.calls && n.calls[i].AtTcp?
    case SetUdp(i, _) => i in n.calls && n.calls[i].AtUdp?
    case TakeBack(i, _) => i in n.calls && n.calls[i].AtBack?
    case WriteRecord(i) => i in n.calls && n.calls[i].AtRecord?
    case Shut => true
  }

  function Next(n: Net, e: Event): Net
    requires Enabled(n, e)
  {
    match e
    case Enter(i, group, path) => if Proceeds(n.s, group, path) then n.(calls := n.calls[i := AtTcp(group, path)]) else n
    case SetTcp(i, call) =>
      var g, path := n.calls[i].group, n.calls[i].path;
      var s := Moved(n.s, SelectorTag(g, Tcp), path, call);
      if CallOK(n.s, SelectorTag(g, Tcp), call) then Net(s, n.calls[i := AtUdp(g, path)]) else Net(s, n.calls - {i})
    case SetUdp(i, call) =>
      var g, path := n.calls[i].group, n.calls[i].path;
      var s := Moved(n.s, SelectorTag(g, Udp), SideOf(path, Udp), call);
      Net(s, n.calls[i := if CallOK(n.s, SelectorTag(g, Udp), call) then AtRecord(g, path) else AtBack(g, path)])
    case TakeBack(i, call) =>
      Net(Moved(n.s, SelectorTag(n.calls[i].group, Tcp), Opposite(n.calls[i].path), call), n.calls - {i})
    case WriteRecord(i) => Net(n.s.(paths := n.s.paths[n.calls[i].group := n.calls[i].path]), n.calls - {i})
    case Shut => n.(s := n.s.(closed := true))
  }

  ghost predicate Run(nets: seq<Net>, events: seq<Event>) {
    && |nets| == |events| + 1
    && forall k {:trigger events[k]} :: 0 <= k < |events| ==> Enabled(nets[k], events[k]) && nets[k + 1] == Next(nets[k], events[k])
  }

  // ------------------------------------------------------------------ one call by itself

  /** The steps of one call that nothing interrupts. */
  function Steps(s: State, i: nat, g: string, path: string, o: Outcome): seq<Event> {
    if !Proceeds(s, g, path) then [Enter(i, g, path)]
    else if !CallOK(s, SelectorTag(g, Tcp), o.tcp) then [Enter(i, g, path), SetTcp(i, o.tcp)]
    else if !CallOK(s, SelectorTag(g, Udp), o.udp) then [Enter(i, g, path), SetTcp(i, o.tcp), SetUdp(i, o.udp), TakeBack(i, o.rollback)]
    else [Enter(i, g, path), SetTcp(i, o.tcp), SetUdp(i, o.udp), WriteRecord(i)]
  }

  lemma TagsStay(s: State, tag: string, out: string, call: Call)
    ensures Moved(s, tag, out, call).selectors.Keys == s.selectors.Keys
  {
  }

  /** Run without interruption, the steps of a call are the switch of the sequential model. */
  lemma UninterruptedIsSwitch(n: Net, i: nat, g: string, path: string, o: Outcome, nets: seq<Net>)
    requires i !in n.calls && Run(nets, Steps(n.s, i, g, path, o)) && nets[0] == n
    ensures nets[|nets| - 1] == Net(Switch(n.s, g, path, o).1, n.calls)
  {
    var es := Steps(n.s, i, g, path, o);
    assert nets[1] == Next(nets[0], es[0]);
    if Proceeds(n.s, g, path) {
      assert nets[2] == Next(nets[1], es[1]);
      assert n.calls[i := AtTcp(g, path)] - {i} == n.calls;
      TagsStay(n.s, SelectorTag(g, Tcp), path, o.tcp);
      if CallOK(n.s, SelectorTag(g, Tcp), o.tcp) {
        assert nets[3] == Next(nets[2], es[2]);
        assert nets[4] == Next(nets[3], es[3]);
        assert nets[4].calls == n.calls;
      }
    }
  }

  // -------------------------------------------------------------------- overlapping calls

  predicate Idle(n: Net, g: string) { forall i :: i in n.calls ==> n.calls[i].group != g }

  /** Every call on g that is under way asks for this path. */
  predicate AllAsk(n: Net, g: string, path: string) {
    forall i :: i in n.calls && n.calls[i].group == g ==> n.calls[i].path == path
  }

  datatype Tcp3 = Untouched | Forward | Back

  /** What the calls on g have done so far. */
  datatype Tally = Tally(tcp: Tcp3, udp: bool, recorded: bool)

  function Count(n: Net, e: Event, g: string, t: Tally): Tally
    requires Enabled(n, e)
  {
    match e
    case SetTcp(i, call) => if n.calls[i].group == g && call != FailedKept then t.(tcp := Forward) else t
    case SetUdp(i, call) => if n.calls[i].group == g && call != FailedKept then t.(udp := true) else t
    case TakeBack(i, call) => if n.calls[i].group == g && call != FailedKept then t.(tcp := Back) else t
    case WriteRecord(i) => if n.calls[i].group == g then t.(recorded := true) else t
    case _ => t
  }

  /** The tally of the first k steps of a run. */
  function Tallied(nets: seq<Net>, events: seq<Event>, g: string, k: nat): Tally
    requires k <= |events| < |nets| && forall j :: 0 <= j < k ==> Enabled(nets[j], events[j])
  {
    if k == 0 then Tally(Untouched, false, false) else Count(nets[k - 1], events[k - 1], g, Tallied(nets, events, g, k - 1))
  }

  /** The group has its selectors, and they and the record are where the tally puts them. */
  predicate Agrees(n: Net, g: string, was: string, path: string, t: Tally) {
    && SelectorTag(g, Tcp) in n.s.selectors && SelectorTag(g, Udp) in n.s.selectors
    && n.s.selectors[SelectorTag(g, Tcp)] == SideOf(if t.tcp == Forward then path else was, Tcp)
    && n.s.selectors[SelectorTag(g, Udp)] == SideOf(if t.udp then path else was, Udp)
    && PathOf(n.s.paths, g) == (if t.recorded then path else was)
    && (t.recorded ==> t.udp) && (forall i :: i in n.calls && n.calls[i] == AtRecord(g, path) ==> t.udp)
  }

  /** A call on g that gets past its checks in this step does so while the record still says `was`. */
  predicate Early(n: Net, e: Event, g: string, was: string) {
    e.Enter? && e.group == g && Proceeds(n.s, g, e.path) ==> PathOf(n.s.paths, g) == was
  }

  lemma OtherTags(g: string, h: string)
    requires g != h
    ensures forall n, m :: SelectorTag(g, n) != SelectorTag(h, m)
  {
    forall n, m
      ensures SelectorTag(g, n) != SelectorTag(h, m)
    {
      if SelectorTag(g, n) == SelectorTag(h, m) {
        TagInjective(g, n, h, m);
      }
    }
  }

  lemma AgreesOther(n: Net, e: Event, g: string, was: string, path: string, t: Tally)
    requires Enabled(n, e) && Agrees(n, g, was, path, t) && !e.Enter? && !e.Shut? && n.calls[e.i].group != g
    ensures Agrees(Next(n, e), g, was, path, Count(n, e, g, t))
  {
    OtherTags(g, n.calls[e.i].group);
  }

  lemma AgreesOwn(n: Net, e: Event, g: string, was: string, path: string, t: Tally)
    requires Enabled(n, e) && Agrees(n, g, was, path, t) && !e.Enter? && !e.Shut?
    requires n.calls[e.i].group == g && n.calls[e.i].path == path && KnownPath(path) && was == Opposite(path)
    ensures Agrees(Next(n, e), g, was, path, Count(n, e, g, t))
  {
    DistinctTags(g);
  }

  lemma AgreesStep(n: Net, e: Event, g: string, was: string, path: string, t: Tally)
    requires Enabled(n, e) && Agrees(n, g, was, path, t) && AllAsk(n, g, path) && Early(n, e, g, was)
    requires KnownPath(path) && was == Opposite(path)
    ensures Agrees(Next(n, e), g, was, path, Count(n, e, g, t)) && AllAsk(Next(n, e), g, path)
  {
    if !e.Enter? && !e.Shut? {
      if n.calls[e.i].group == g {
        AgreesOwn(n, e, g, was, path, t);
      } else {
        AgreesOther(n, e, g, was, path, t);
      }
    }
  }

  lemma {:induction false} RunAgrees(nets: seq<Net>, events: seq<Event>, g: string, was: string, path: string, k: nat)
    requires Run(nets, events) && k <= |events| && Coupled(nets[0].s, g) && Idle(nets[0], g) && PathOf(nets[0].s.paths, g) == was
    requires KnownPath(path) && was == Opposite(path) && forall j :: 0 <= j < k ==> Early(nets[j], events[j], g, was)
    ensures forall j :: 0 <= j < k ==> Enabled(nets[j], events[j])
    ensures Agrees(nets[k], g, was, path, Tallied(nets, events, g, k)) && AllAsk(nets[k], g, path)
  {
    if k > 0 {
      RunAgrees(nets, events, g, was, path, k - 1);
      AgreesStep(nets[k - 1], events[k - 1], g, was, path, Tallied(nets, events, g, k - 1));
    }
  }

  /**
    Any number of calls on a group that start before one of them writes the record, interleaved in any
    way with each other and with calls on other groups: the group is together in a state exactly when
    some call has written the record and the last move of the TCP selector was forward, or none has
    and the UDP selector was never moved and the last move of the TCP selector, if any, was back. Two
    calls on a group are of this kind or follow one another.
   */
  lemma RaceIff(nets: seq<Net>, events: seq<Event>, g: string, k: nat)
    requires Run(nets, events) && k <= |events| && Coupled(nets[0].s, g) && Idle(nets[0], g) && KnownPath(PathOf(nets[0].s.paths, g))
    requires forall j :: 0 <= j < k ==> Early(nets[j], events[j], g, PathOf(nets[0].s.paths, g))
    ensures forall j :: 0 <= j < k ==> Enabled(nets[j], events[j])
    ensures var t := Tallied(nets, events, g, k);
            Coupled(nets[k].s, g) <==> if t.recorded then t.tcp == Forward else t.tcp != Forward && !t.udp
  {
    var was := PathOf(nets[0].s.paths, g);
    RunAgrees(nets, events, g, was, Opposite(was), k);
  }

  // ------------------------------------------------------------------------ every interleaving

  /** Where a step moves this selector of g, if it does. */
  function Aim(n: Net, e: Event, g: string, net: Network): Option<string>
    requires Enabled(n, e)
  {
    match e
    case SetTcp(i, call) => if net == Tcp && n.calls[i].group == g && call != FailedKept then Some(n.calls[i].path) else None
    case SetUdp(i, call) => if net == Udp && n.calls[i].group == g && call != FailedKept then Some(SideOf(n.calls[i].path, Udp)) else None
    case TakeBack(i, call) => if net == Tcp && n.calls[i].group == g && call != FailedKept then Some(Opposite(n.calls[i].path)) else None
    case _ => None
  }

  /** Step m is the last of the first k steps to move this selector of g. */
  ghost predicate LastMove(nets: seq<Net>, events: seq<Event>, g: string, net: Network, k: nat, m: nat)
    requires Run(nets, events) && k <= |events|
  {
    && m < k && Aim(nets[m], events[m], g, net).Some?
    && forall j {:trigger events[j]} :: m < j < k ==> Aim(nets[j], events[j], g, net).None?
  }

  lemma AimMoves(n: Net, e: Event, g: string, net: Network)
    requires Enabled(n, e) && SelectorTag(g, net) in n.s.selectors
    ensures var sel, after := n.s.selectors, Next(n, e).s.selectors;
            && SelectorTag(g, net) in after
            && after[SelectorTag(g, net)] == match Aim(n, e, g, net) case Some(out) => out case None => sel[SelectorTag(g, net)]
  {
    DistinctTags(g);
    if !e.Enter? && !e.Shut? && n.calls[e.i].group != g {
      OtherTags(g, n.calls[e.i].group);
    }
  }

  /** After any steps a selector stands where the last step that moved it put it. */
  lemma {:induction false} StandsWhereMoved(nets: seq<Net>, events: seq<Event>, g: string, net: Network, k: nat, m: nat)
    requires Run(nets, events) && m < k <= |events| && SelectorTag(g, net) in nets[0].s.selectors && LastMove(nets, events, g, net, k, m)
    ensures SelectorTag(g, net) in nets[k].s.selectors && Some(nets[k].s.selectors[SelectorTag(g, net)]) == Aim(nets[m], events[m], g, net)
  {
    HasSelector(nets, events, g, net, k - 1);
    AimMoves(nets[k - 1], events[k - 1], g, net);
    if m < k - 1 {
      StandsWhereMoved(nets, events, g, net, k - 1, m);
    }
  }

  lemma {:induction false} HasSelector(nets: seq<Net>, events: seq<Event>, g: string, net: Network, k: nat)
    requires Run(nets, events) && k <= |events| && SelectorTag(g, net) in nets[0].s.selectors
    ensures SelectorTag(g, net) in nets[k].s.selectors
  {
    if k > 0 {
      HasSelector(nets, events, g, net, k - 1);
      AimMoves(nets[k - 1], events[k - 1], g, net);
    }
  }

  /**
    Any calls on any groups, interleaved in any way: once both selectors of a group were moved, it is
    together exactly when the last moves of the two aimed at the sides of the path on record.
   */
  lemma AnyRaceIff(nets: seq<Net>, events: seq<Event>, g: string, k: nat, tcp: nat, udp: nat)
    requires Run(nets, events) && k <= |events| && SelectorTag(g, Tcp) in nets[0].s.selectors && SelectorTag(g, Udp) in nets[0].s.selectors
    requires LastMove(nets, events, g, Tcp, k, tcp) && LastMove(nets, events, g, Udp, k, udp)
    ensures var path := PathOf(nets[k].s.paths, g);
            Coupled(nets[k].s, g) <==>
            && Aim(nets[tcp], events[tcp], g, Tcp) == Some(SideOf(path, Tcp))
            && Aim(nets[udp], events[udp], g, Udp) == Some(SideOf(path, Udp))
  {
    StandsWhereMoved(nets, events, g, Tcp, k, tcp);
    StandsWhereMoved(nets, events, g, Udp, k, udp);
  }

  // ------------------------------------------------------------------ a race that splits

  lemma OneMore(nets: seq<Net>, events: seq<Event>, e: Event)
    requires Run(nets, events) && Enabled(nets[|events|], e)
    ensures Run(nets + [Next(nets[|events|], e)], events + [e])
  {
    var ns, es := nets + [Next(nets[|events|], e)], events + [e];
    forall k {:trigger es[k]} | 0 <= k < |es|
      ensures Enabled(ns[k], es[k]) && ns[k + 1] == Next(ns[k], es[k])
    {
      if k < |events| {
        assert es[k] == events[k] && ns[k] == nets[k] && ns[k + 1] == nets[k + 1];
      }
    }
  }

  /** Both calls have moved the TCP selector to the tunnel. */
  lemma BothForward(n: Net, g: string) returns (nets: seq<Net>, events: seq<Event>)
    requires Coupled(n.s, g) && g in n.s.known && n.s.remote && !n.s.closed && PathOf(n.s.paths, g) == "desync" && n.calls == map[]
    ensures Run(nets, events) && nets[0] == n && |events| == 4
    ensures nets[4] == Net(n.s.(selectors := n.s.selectors[SelectorTag(g, Tcp) := "tunnel"]), map[0 := AtUdp(g, "tunnel"), 1 := AtUdp(g, "tunnel")])
    ensures events == [Enter(0, g, "tunnel"), Enter(1, g, "tunnel"), SetTcp(0, Succeeded), SetTcp(1, Succeeded)]
  {
    var a := Next(n, Enter(0, g, "tunnel"));
    var b := Next(a, Enter(1, g, "tunnel"));
    var c := Next(b, SetTcp(0, Succeeded));
    var d := Next(c, SetTcp(1, Succeeded));
    nets, events := [n, a, b, c, d], [Enter(0, g, "tunnel"), Enter(1, g, "tunnel"), SetTcp(0, Succeeded), SetTcp(1, Succeeded)];
    assert d.calls == map[0 := AtUdp(g, "tunnel"), 1 := AtUdp(g, "tunnel")];
  }

  /**
    Two overlapping calls can split a group although the failing one takes back what it moved: its
    rollback comes after the other call has written the record.
   */
  lemma RaceSplits(n: Net, g: string) returns (nets: seq<Net>, events: seq<Event>)
    requires Coupled(n.s, g) && g in n.s.known && n.s.remote && !n.s.closed && PathOf(n.s.paths, g) == "desync" && n.calls == map[]
    ensures Run(nets, events) && nets[0] == n && |events| == 8 && Idle(nets[8], g)
    ensures events[4..] == [SetUdp(0, FailedKept), SetUdp(1, Succeeded), WriteRecord(1), TakeBack(0, Succeeded)]
    ensures PathOf(nets[8].s.paths, g) == "tunnel" && !Coupled(nets[8].s, g)
  {
    DistinctTags(g);
    nets, events := BothForward(n, g);
    nets, events := Grow(nets, events, SetUdp(0, FailedKept));
    nets, events := Grow(nets, events, SetUdp(1, Succeeded));
    nets, events := Grow(nets, events, WriteRecord(1));
    nets, events := Grow(nets, events, TakeBack(0, Succeeded));
  }

  lemma Grow(before: seq<Net>, past: seq<Event>, e: Event) returns (nets: seq<Net>, events: seq<Event>)
    requires Run(before, past) && Enabled(before[|past|], e)
    ensures Run(nets, events) && nets == before + [Next(before[|past|], e)] && events == past + [e]
  {
    OneMore(before, past, e);
    nets, events := before + [Next(before[|past|], e)], past + [e];
  }
}
