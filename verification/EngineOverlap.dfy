/**
  A run of the engine in which overlapping work loses a session: a component repair of the helper is
  under way while a self-heal rebinds the helper to a new address.
 */
module EngineOverlap {
  import opened Options
  import opened Chain
  import opened EngineCore
  import opened EngineRuns
  import opened EngineOwnership

  const SAFE: Strategy := Strategy("", [], "")

  function Cfg(ip: string): Config { Config(SAFE, ip) }

  const GW: Gateway := Gateway("", map[])

  /** The engine after a public start with the selective layer up, and what changes afterwards. */
  function Running(helper: Handle, ip: string, switching: bool, open: set<Handle>, next: nat): Core {
    Core(1, 1, Active, true, Some(Job(0)), Some(Capture(1)), Some(Resolver(2)), Some(helper), Some(Tunnel(4, GW)),
         Selective, switching, None, true, Some(Cfg(ip)), Some(GW), SAFE, NO_NETWORK, false, map[], open, next)
  }

  const BASE: set<Handle> := {Job(0), Capture(1), Resolver(2), Tunnel(4, GW)}
  const FIRST: Handle := Helper(3, Cfg("1"))
  const REBOUND: Handle := Helper(5, Cfg("2"))
  const REPAIRED: Handle := Helper(6, Cfg("1"))

  function S0(): State { Initial(SAFE, map[]) }

  function S1(): State { State(Running(FIRST, "1", false, BASE + {FIRST}, 5), map[]) }

  function S2(): State { State(Running(FIRST, "1", true, BASE + {FIRST}, 5), map[0 := RepairOpen(1, WantHelper(Cfg("1")), Some(FIRST))]) }

  function S3(): State { S2().(tasks := map[0 := RepairOpen(1, WantHelper(Cfg("1")), Some(FIRST)), 1 := Heal(1, 1)]) }

  function S4(): State { State(Running(REBOUND, "2", true, BASE + {REBOUND}, 6), map[0 := RepairOpen(1, WantHelper(Cfg("1")), Some(FIRST))]) }

  function S5(): State { State(Running(REBOUND, "2", true, BASE + {REBOUND}, 6), map[0 := RepairClosed(1, WantHelper(Cfg("1")), Some(FIRST), false)]) }

  function S6(): State {
    State(Running(REBOUND, "2", true, BASE + {REBOUND} + {REPAIRED}, 7),
          map[0 := RepairStarted(1, WantHelper(Cfg("1")), Some(FIRST), Some(REPAIRED), false)])
  }

  function S7(): State { State(Running(REPAIRED, "2", false, BASE + {REBOUND} + {REPAIRED}, 7), map[]) }

  lemma Starts()
    ensures Step(S0(), StartCall(true), S1())
  {
    var c, d := Bumped(S0().core), S1().core;
    assert Wrapped(SAFE) == SAFE;
    assert d.open == c.open + Owned(d);
    assert Started(c, d);
    assert PublicStep(S0(), StartCall(true), S1());
  }

  lemma Begins()
    ensures Step(S1(), RepairBegin(0, 1, WantHelper(Cfg("1"))), S2())
    ensures Step(S2(), HealBegin(1), S3())
  {
    assert S2().tasks == S1().tasks[0 := RepairOpen(1, WantHelper(Cfg("1")), Some(FIRST))];
    assert RepairStep(S1(), RepairBegin(0, 1, WantHelper(Cfg("1"))), S2());
    assert S3().tasks == S2().tasks[1 := Heal(1, 1)];
    assert HealStep(S2(), HealBegin(1), S3());
  }

  lemma Rebinds()
    ensures Step(S3(), HealRebind(1), S4())
  {
    var c, d := S3().core, S4().core;
    assert d.open == c.open - Held(c.des) + Held(d.des);
    assert Rebound(c, d);
    assert S4().tasks == S3().tasks - {1};
    assert HealStep(S3(), HealRebind(1), S4());
  }

  lemma Closes()
    ensures Step(S4(), RepairClose(0, false), S5())
  {
    assert S4().core.open - Held(Some(FIRST)) == S4().core.open;
    assert S5().tasks == S4().tasks[0 := RepairClosed(1, WantHelper(Cfg("1")), Some(FIRST), false)];
    assert RepairStep(S4(), RepairClose(0, false), S5());
  }

  lemma Repairs()
    ensures Step(S5(), RepairStart(0), S6())
    ensures Step(S6(), RepairFinish(0), S7())
  {
    assert S6().tasks == S5().tasks[0 := S6().tasks[0]];
    assert RepairStep(S5(), RepairStart(0), S6());
    assert S7().tasks == S6().tasks - {0};
    assert RepairStep(S6(), RepairFinish(0), S7());
  }

  lemma OneStepRun(s: State, e: Event, t: State, safe: Strategy, saved: map<string, Strategy>)
    requires s == Initial(safe, saved) && Step(s, e, t)
    ensures Run([s, t], [e])
  {
  }

  lemma OneMore(states: seq<State>, events: seq<Event>, e: Event, t: State)
    requires Run(states, events) && Step(states[|events|], e, t)
    ensures Run(states + [t], events + [e])
  {
    var ss, es := states + [t], events + [e];
    forall i | 0 <= i < |es|
      ensures Step(ss[i], es[i], ss[i + 1])
    {
      if i < |events| {
        assert Step(states[i], events[i], states[i + 1]);
      }
    }
  }

  lemma TwoMore(states: seq<State>, events: seq<Event>, e: Event, t: State, f: Event, u: State)
    requires Run(states, events) && Step(states[|events|], e, t) && Step(t, f, u)
    ensures Run(states + [t, u], events + [e, f])
  {
    OneMore(states, events, e, t);
    OneMore(states + [t], events + [e], f, u);
    assert (states + [t]) + [u] == states + [t, u] && (events + [e]) + [f] == events + [e, f];
  }

  lemma FirstThree()
    ensures Run([S0(), S1(), S2(), S3()], [StartCall(true), RepairBegin(0, 1, WantHelper(Cfg("1"))), HealBegin(1)])
  {
    var a, b, c, d := S0(), S1(), S2(), S3();
    var e, f, g := StartCall(true), RepairBegin(0, 1, WantHelper(Cfg("1"))), HealBegin(1);
    Starts();
    Begins();
    OneStepRun(a, e, b, SAFE, map[]);
    TwoMore([a, b], [e], f, c, g, d);
    assert [a, b] + [c, d] == [a, b, c, d] && [e] + [f, g] == [e, f, g];
  }

  lemma NextTwo(states: seq<State>, events: seq<Event>)
    requires Run(states, events) && states[|events|] == S3()
    ensures Run(states + [S4(), S5()], events + [HealRebind(1), RepairClose(0, false)])
  {
    Rebinds();
    Closes();
    TwoMore(states, events, HealRebind(1), S4(), RepairClose(0, false), S5());
  }

  lemma LastTwo(states: seq<State>, events: seq<Event>)
    requires Run(states, events) && states[|events|] == S5()
    ensures Run(states + [S6(), S7()], events + [RepairStart(0), RepairFinish(0)])
  {
    Repairs();
    TwoMore(states, events, RepairStart(0), S6(), RepairFinish(0), S7());
  }

  lemma FirstFive() returns (states: seq<State>, events: seq<Event>)
    ensures Run(states, events) && |events| == 5 && states[5] == S5()
    ensures events[1] == RepairBegin(0, 1, WantHelper(Cfg("1"))) && events[3] == HealRebind(1)
  {
    FirstThree();
    states, events := [S0(), S1(), S2(), S3()], [StartCall(true), RepairBegin(0, 1, WantHelper(Cfg("1"))), HealBegin(1)];
    NextTwo(states, events);
    states, events := states + [S4(), S5()], events + [HealRebind(1), RepairClose(0, false)];
  }

  lemma AllSeven() returns (states: seq<State>, events: seq<Event>)
    ensures Run(states, events) && |events| == 7 && states[6] == S6() && states[7] == S7()
    ensures events[1] == RepairBegin(0, 1, WantHelper(Cfg("1"))) && events[3] == HealRebind(1) && events[6] == RepairFinish(0)
  {
    states, events := FirstFive();
    LastTwo(states, events);
    states, events := states + [S6(), S7()], events + [RepairStart(0), RepairFinish(0)];
  }

  /** The run exists, and at its end the helper of the self-heal is open and nobody knows it. */
  lemma OverlapLoses() returns (states: seq<State>, events: seq<Event>)
    ensures Run(states, events) && |events| == 7
    ensures events[1] == RepairBegin(0, 1, WantHelper(Cfg("1"))) && events[3] == HealRebind(1) && events[6] == RepairFinish(0)
    ensures Covered(states[6]) && !Covered(states[7]) && REBOUND in states[7].core.open
  {
    Loses();
    states, events := AllSeven();
  }

  lemma Loses()
    ensures Covered(S6()) && !Covered(S7()) && REBOUND in S7().core.open
  {
    assert REPAIRED in TaskOwned(S6().tasks[0]);
    assert TaskHolds(S6(), REPAIRED);
    assert REBOUND in S7().core.open && REBOUND !in Owned(S7().core) && !TaskHolds(S7(), REBOUND);
  }
}
