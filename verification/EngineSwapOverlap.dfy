/**
  Runs in which a strategy swap loses a session although every repair is safe: the swap has taken its
  helper down, the end of an earlier resolver repair lets a second repair begin, that repair puts a
  helper in place, and the last region of the swap assigns over it.
 */
module EngineSwapOverlap {
  import opened Options
  import opened Chain
  import opened EngineCore
  import opened EngineRuns
  import opened EngineOwnership
  import opened EngineLosses
  import opened EngineOverlap

  const RESOLVER: Handle := Resolver(2)
  const OLD: Handle := Helper(3, Cfg("1"))
  const BEFORE: Handle := Tunnel(4, GW)
  const REBUILT: Handle := Tunnel(5, GW)
  const PLACED: Handle := Helper(7, Cfg("1"))
  const WINNER: Handle := Helper(8, Cfg("1"))

  function Up(des: Option<Handle>, tun: Handle, switching: bool, scan: Option<nat>, open: set<Handle>, next: nat): Core {
    Core(1, 1, Active, true, Some(Job(0)), Some(Capture(1)), Some(RESOLVER), des, Some(tun),
         Selective, switching, scan, true, Some(Cfg("1")), Some(GW), SAFE, NO_NETWORK, false, map[], open, next)
  }

  const LEFT: set<Handle> := {Job(0), Capture(1), REBUILT}

  const RESOLVING: Task := RepairOpen(1, WantResolver, Some(RESOLVER))
  const SCANNING: Task := Scanning(1, OLD, REBUILT, Cfg("1"), 6)
  const VERIFYING: Task := Verifying(1, REBUILT, Cfg("1"), Cfg("1"))

  function T1(): State { State(Up(Some(OLD), BEFORE, false, None, {Job(0), Capture(1), RESOLVER, OLD, BEFORE}, 5), map[]) }

  function T2(): State { State(Up(Some(OLD), BEFORE, true, None, {Job(0), Capture(1), RESOLVER, OLD, BEFORE}, 5), map[0 := RESOLVING]) }

  function T3(): State { T2().(tasks := map[0 := RESOLVING, 1 := Escalating(1, BEFORE)]) }

  function T4(): State { State(Up(Some(OLD), REBUILT, false, None, {Job(0), Capture(1), RESOLVER, OLD, REBUILT}, 6), map[0 := RESOLVING]) }

  function T5(): State {
    State(Up(Some(OLD), REBUILT, false, Some(6), {Job(0), Capture(1), RESOLVER, OLD, REBUILT}, 7), map[0 := RESOLVING, 1 := SCANNING])
  }

  function T6(): State { State(Up(None, REBUILT, true, Some(6), LEFT + {RESOLVER}, 7), map[0 := RESOLVING, 1 := VERIFYING]) }

  function T7(): State {
    State(Up(None, REBUILT, true, Some(6), LEFT, 7), map[0 := RepairClosed(1, WantResolver, Some(RESOLVER), false), 1 := VERIFYING])
  }

  function T8(): State { T7().(tasks := map[0 := RepairStarted(1, WantResolver, Some(RESOLVER), None, true), 1 := VERIFYING]) }

  function T9(): State { State(Up(None, REBUILT, false, Some(6), LEFT, 7), map[1 := VERIFYING]) }

  function T10(): State { State(Up(None, REBUILT, true, Some(6), LEFT, 7), map[0 := RepairOpen(1, WantHelper(Cfg("1")), None), 1 := VERIFYING]) }

  function T11(): State { T10().(tasks := map[0 := RepairClosed(1, WantHelper(Cfg("1")), None, false), 1 := VERIFYING]) }

  function T12(): State {
    State(Up(None, REBUILT, true, Some(6), LEFT + {PLACED}, 8),
          map[0 := RepairStarted(1, WantHelper(Cfg("1")), None, Some(PLACED), false), 1 := VERIFYING])
  }

  function T13(): State { State(Up(Some(PLACED), REBUILT, false, Some(6), LEFT + {PLACED}, 8), map[1 := VERIFYING]) }

  // ------------------------------------------------------------------------- step by step

  lemma Begun()
    ensures Step(S0(), StartCall(true), T1()) && Step(T1(), RepairBegin(0, 1, WantResolver), T2())
  {
    Starts();
    assert S1().core.open == T1().core.open;
    assert T2().tasks == T1().tasks[0 := RESOLVING];
    assert RepairStep(T1(), RepairBegin(0, 1, WantResolver), T2());
  }

  lemma Rebuilds()
    ensures Step(T2(), EscalateBegin(1, 1), T3()) && Step(T3(), EscalateRebuild(1, GW, true), T4())
  {
    assert T3().tasks == T2().tasks[1 := Escalating(1, BEFORE)];
    assert LayerStep(T2(), EscalateBegin(1, 1), T3());
    var c, d := T3().core, T4().core;
    assert d.open == c.open - Held(c.tun) + Held(d.tun);
    assert Rebuilt(c, GW, true, d);
    assert T4().tasks == T3().tasks - {1};
    assert LayerStep(T3(), EscalateRebuild(1, GW, true), T4());
  }

  lemma Scans()
    ensures Step(T4(), SwapBegin(1, 1), T5())
  {
    assert T5().tasks == T4().tasks[1 := SCANNING];
    assert SwapStep(T4(), SwapBegin(1, 1), T5());
  }

  lemma Decides()
    ensures Step(T5(), SwapDecide(1, Some(SAFE), false), T6())
  {
    assert T5().core.open - Held(Some(OLD)) == T6().core.open;
    assert T6().tasks == T5().tasks[1 := VERIFYING];
    assert Cfg("1").(strategy := SAFE) == Cfg("1");
    assert DecideStep(T5(), 1, Some(SAFE), false, T6());
    assert SwapStep(T5(), SwapDecide(1, Some(SAFE), false), T6());
  }

  lemma ClosesResolver()
    ensures Step(T6(), RepairClose(0, false), T7())
  {
    assert T6().core.open - Held(Some(RESOLVER)) == T7().core.open;
    assert T7().tasks == T6().tasks[0 := T7().tasks[0]];
    assert RepairStep(T6(), RepairClose(0, false), T7());
  }

  lemma GivesUp()
    ensures Step(T7(), RepairStart(0), T8()) && Step(T8(), RepairFinish(0), T9())
  {
    assert T8().tasks == T7().tasks[0 := T8().tasks[0]];
    assert RepairStep(T7(), RepairStart(0), T8());
    assert T9().tasks == T8().tasks - {0};
    assert RepairStep(T8(), RepairFinish(0), T9());
  }

  lemma BeginsAgain()
    ensures Step(T9(), RepairBegin(0, 1, WantHelper(Cfg("1"))), T10()) && Step(T10(), RepairClose(0, false), T11())
  {
    assert T10().tasks == T9().tasks[0 := T10().tasks[0]];
    assert RepairStep(T9(), RepairBegin(0, 1, WantHelper(Cfg("1"))), T10());
    assert T10().core.open - Held(None) == T11().core.open;
    assert T11().tasks == T10().tasks[0 := T11().tasks[0]];
    assert RepairStep(T10(), RepairClose(0, false), T11());
  }

  lemma Places()
    ensures Step(T11(), RepairStart(0), T12()) && Step(T12(), RepairFinish(0), T13())
  {
    assert T12().tasks == T11().tasks[0 := T12().tasks[0]];
    assert RepairStep(T11(), RepairStart(0), T12());
    assert T13().tasks == T12().tasks - {0};
    assert RepairStep(T12(), RepairFinish(0), T13());
  }

  // ---------------------------------------------------------------------- the common part

  /** A run up to s in which no step assigned over a handle. */
  ghost predicate Clear(states: seq<State>, events: seq<Event>, s: State) {
    && Run(states, events) && states[|events|] == s
    && forall k {:trigger events[k]} :: 0 <= k < |events| ==> Overwritten(states[k], events[k]).None?
  }

  lemma ClearMore(states: seq<State>, events: seq<Event>, s: State, e: Event, t: State)
    requires Clear(states, events, s) && Step(s, e, t) && Overwritten(s, e).None?
    ensures Clear(states + [t], events + [e], t)
  {
    OneMore(states, events, e, t);
    var ss, es := states + [t], events + [e];
    forall k {:trigger es[k]} | 0 <= k < |es|
      ensures Overwritten(ss[k], es[k]).None?
    {
      if k < |events| {
        assert es[k] == events[k] && ss[k] == states[k];
      }
    }
  }

  lemma ClearTwo(states: seq<State>, events: seq<Event>, s: State, e: Event, t: State, f: Event, u: State)
    requires Clear(states, events, s) && Step(s, e, t) && Overwritten(s, e).None? && Step(t, f, u) && Overwritten(t, f).None?
    ensures Clear(states + [t, u], events + [e, f], u)
  {
    ClearMore(states, events, s, e, t);
    ClearMore(states + [t], events + [e], t, f, u);
    assert (states + [t]) + [u] == states + [t, u] && (events + [e]) + [f] == events + [e, f];
  }

  lemma ToRepair() returns (states: seq<State>, events: seq<Event>)
    ensures Clear(states, events, T2()) && events == [StartCall(true), RepairBegin(0, 1, WantResolver)]
  {
    states, events := [S0()], [];
    assert Run(states, events);
    Begun();
    ClearTwo(states, events, S0(), StartCall(true), T1(), RepairBegin(0, 1, WantResolver), T2());
    assert events + [StartCall(true), RepairBegin(0, 1, WantResolver)] == [StartCall(true), RepairBegin(0, 1, WantResolver)];
    states, events := states + [T1(), T2()], [StartCall(true), RepairBegin(0, 1, WantResolver)];
  }

  /** The escalation clears the flag that keeps swaps and repairs apart. */
  lemma ToScan(before: seq<State>, past: seq<Event>) returns (states: seq<State>, events: seq<Event>)
    requires Clear(before, past, T2())
    ensures Clear(states, events, T5()) && events == past + [EscalateBegin(1, 1), EscalateRebuild(1, GW, true)] + [SwapBegin(1, 1)]
  {
    Rebuilds();
    Scans();
    ClearTwo(before, past, T2(), EscalateBegin(1, 1), T3(), EscalateRebuild(1, GW, true), T4());
    states, events := before + [T3(), T4()], past + [EscalateBegin(1, 1), EscalateRebuild(1, GW, true)];
    ClearMore(states, events, T4(), SwapBegin(1, 1), T5());
    states, events := states + [T5()], events + [SwapBegin(1, 1)];
  }

  /** The start of the resolver fails and its repair ends, while the swap is verifying. */
  lemma ToGivenUp(before: seq<State>, past: seq<Event>) returns (states: seq<State>, events: seq<Event>)
    requires Clear(before, past, T7())
    ensures Clear(states, events, T9()) && events == past + [RepairStart(0), RepairFinish(0)]
  {
    GivesUp();
    ClearTwo(before, past, T7(), RepairStart(0), T8(), RepairFinish(0), T9());
    states, events := before + [T8(), T9()], past + [RepairStart(0), RepairFinish(0)];
  }

  lemma ToVerifying(before: seq<State>, past: seq<Event>) returns (states: seq<State>, events: seq<Event>)
    requires Clear(before, past, T5())
    ensures Clear(states, events, T7()) && events == past + [SwapDecide(1, Some(SAFE), false), RepairClose(0, false)]
  {
    Decides();
    ClosesResolver();
    ClearTwo(before, past, T5(), SwapDecide(1, Some(SAFE), false), T6(), RepairClose(0, false), T7());
    states, events := before + [T6(), T7()], past + [SwapDecide(1, Some(SAFE), false), RepairClose(0, false)];
  }

  /** A second repair finds no helper and puts one in place. */
  lemma ToPlaced(before: seq<State>, past: seq<Event>) returns (states: seq<State>, events: seq<Event>)
    requires Clear(before, past, T9())
    ensures Clear(states, events, T13())
    ensures events == past + [RepairBegin(0, 1, WantHelper(Cfg("1"))), RepairClose(0, false)] + [RepairStart(0), RepairFinish(0)]
  {
    BeginsAgain();
    Places();
    ClearTwo(before, past, T9(), RepairBegin(0, 1, WantHelper(Cfg("1"))), T10(), RepairClose(0, false), T11());
    states, events := before + [T10(), T11()], past + [RepairBegin(0, 1, WantHelper(Cfg("1"))), RepairClose(0, false)];
    ClearTwo(states, events, T11(), RepairStart(0), T12(), RepairFinish(0), T13());
    states, events := states + [T12(), T13()], events + [RepairStart(0), RepairFinish(0)];
  }

  lemma Placing() returns (states: seq<State>, events: seq<Event>)
    ensures Clear(states, events, T13()) && |events| == 13
  {
    states, events := ToRepair();
    states, events := ToScan(states, events);
    states, events := ToVerifying(states, events);
    states, events := ToGivenUp(states, events);
    states, events := ToPlaced(states, events);
  }

  /** In a clear run every open session has an owner, in every state. */
  lemma ClearCovered(states: seq<State>, events: seq<Event>, s: State)
    requires Clear(states, events, s)
    ensures forall k :: 0 <= k < |states| ==> Covered(states[k])
  {
    forall k | 0 <= k < |states|
      ensures Covered(states[k])
    {
      RunCoveredIff(states, events, k);
    }
  }

  // ------------------------------------------------------------------------- the two ends

  const GOOD: Verdict := Verdict(true, true, [true, true], true)
  const BAD: Verdict := Verdict(false, false, [], false)

  function C14(): State {
    State(Up(Some(PLACED), REBUILT, false, Some(6), LEFT + {PLACED} + {WINNER}, 9),
          map[1 := Verified(1, REBUILT, Cfg("1"), Cfg("1"), Some(WINNER), GOOD)])
  }

  function C15(): State { State(Up(Some(WINNER), REBUILT, false, None, LEFT + {PLACED} + {WINNER}, 9), map[]) }

  lemma Commits()
    ensures Step(T13(), SwapStart(1), C14()) && Step(C14(), SwapCommit(1), C15()) && !Covered(C15())
  {
    assert C14().tasks == T13().tasks[1 := C14().tasks[1]];
    assert SwapStep(T13(), SwapStart(1), C14());
    assert [true, true][..1] == [true] && [true][..0] == [];
    assert Passes([true]) == 1 && Passes([true, true]) == 2;
    assert C15().tasks == C14().tasks - {1};
    assert CommitStep(C14(), 1, C15());
    assert SwapStep(C14(), SwapCommit(1), C15());
    assert PLACED in C15().core.open && PLACED !in Owned(C15().core) && !TaskHolds(C15(), PLACED);
  }

  /** A confirmed swap assigns over the helper of the repair; every earlier state was in order. */
  lemma CommitLoses() returns (states: seq<State>, events: seq<Event>)
    ensures Run(states, events) && |events| == 15 && events[14] == SwapCommit(1)
    ensures forall k :: 0 <= k < 15 ==> Covered(states[k])
    ensures !Covered(states[15]) && PLACED in states[15].core.open
  {
    states, events := Placing();
    Commits();
    ClearMore(states, events, T13(), SwapStart(1), C14());
    states, events := states + [C14()], events + [SwapStart(1)];
    ClearCovered(states, events, C14());
    OneMore(states, events, SwapCommit(1), C15());
    states, events := states + [C15()], events + [SwapCommit(1)];
  }

  function E14(): State { T13().(tasks := map[1 := Verified(1, REBUILT, Cfg("1"), Cfg("1"), None, BAD)]) }

  function E15(): State { T13().(tasks := map[1 := Restoring(1, REBUILT, Cfg("1"))]) }

  function E16(): State { T13().(tasks := map[1 := Restored(1, REBUILT, Cfg("1"), None)]) }

  function E17(): State { State(Up(None, REBUILT, false, None, LEFT + {PLACED}, 8), map[]) }

  lemma Fails()
    ensures Step(T13(), SwapStart(1), E14()) && Step(E14(), SwapCommit(1), E15())
  {
    assert E14().tasks == T13().tasks[1 := E14().tasks[1]];
    assert SwapStep(T13(), SwapStart(1), E14());
    assert E14().core.open - Held(None) == E15().core.open;
    assert E15().tasks == E14().tasks[1 := E15().tasks[1]];
    assert CommitStep(E14(), 1, E15());
    assert SwapStep(E14(), SwapCommit(1), E15());
  }

  lemma Ends()
    ensures Step(E15(), SwapRestart(1), E16()) && Step(E16(), SwapEnd(1), E17()) && !Covered(E17())
  {
    assert E16().tasks == E15().tasks[1 := E16().tasks[1]];
    assert SwapStep(E15(), SwapRestart(1), E16());
    assert E17().tasks == E16().tasks - {1};
    assert EndStep(E16(), 1, E17());
    assert SwapStep(E16(), SwapEnd(1), E17());
    assert PLACED in E17().core.open && PLACED !in Owned(E17().core) && !TaskHolds(E17(), PLACED);
  }

  lemma ToRestored() returns (states: seq<State>, events: seq<Event>)
    ensures Clear(states, events, E16()) && |events| == 16
  {
    states, events := Placing();
    Fails();
    Ends();
    ClearTwo(states, events, T13(), SwapStart(1), E14(), SwapCommit(1), E15());
    states, events := states + [E14(), E15()], events + [SwapStart(1), SwapCommit(1)];
    ClearMore(states, events, E15(), SwapRestart(1), E16());
    states, events := states + [E16()], events + [SwapRestart(1)];
  }

  /** A swap whose verification and restart both come up empty assigns nothing over the helper of the repair. */
  lemma RollbackLoses() returns (states: seq<State>, events: seq<Event>)
    ensures Run(states, events) && |events| == 17 && events[16] == SwapEnd(1)
    ensures forall k :: 0 <= k < 17 ==> Covered(states[k])
    ensures !Covered(states[17]) && PLACED in states[17].core.open && states[17].core.des.None?
  {
    states, events := ToRestored();
    Ends();
    ClearCovered(states, events, E16());
    OneMore(states, events, SwapEnd(1), E17());
    states, events := states + [E17()], events + [SwapEnd(1)];
  }
}
