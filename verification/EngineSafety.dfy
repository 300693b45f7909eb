/**
  Safety of the protection engine over whole runs: off stays off, a self-heal restarts only what it
  stopped, protection and state agree whenever the lock is free, and no session loses its layer.
 */
module EngineSafety {
  import opened Options
  import opened Chain
  import opened EngineCore
  import opened EngineRuns

  lemma InitialInv(safe: Strategy, saved: map<string, Strategy>)
    ensures Inv(Initial(safe, saved))
  {
  }

  lemma StepAt(states: seq<State>, events: seq<Event>, i: nat)
    requires Run(states, events) && i < |events| && Inv(states[i])
    ensures Inv(states[i + 1]) && Flows(states[i].core, states[i + 1].core)
  {
    StepInv(states[i], events[i], states[i + 1]);
  }

  /** In every reachable state protection, phase, layer and handles agree. */
  lemma {:induction false} RunQuiet(states: seq<State>, events: seq<Event>, i: nat)
    requires Run(states, events) && i < |states|
    ensures Inv(states[i]) && Quiet(states[i].core)
  {
    if i == 0 {
      var safe, saved :| states[0] == Initial(safe, saved);
      InitialInv(safe, saved);
    } else {
      RunQuiet(states, events, i - 1);
      StepAt(states, events, i - 1);
    }
  }

  lemma FlowAt(states: seq<State>, events: seq<Event>, i: nat)
    requires Run(states, events) && i < |events|
    ensures Flows(states[i].core, states[i + 1].core)
  {
    RunQuiet(states, events, i);
    StepAt(states, events, i);
  }

  lemma FlowsTransitive(a: Core, b: Core, c: Core)
    requires Flows(a, b) && Flows(b, c)
    ensures Flows(a, c)
  {
  }

  lemma {:induction false} RunFlows(states: seq<State>, events: seq<Event>, i: nat, j: nat)
    requires Run(states, events) && i <= j < |states|
    ensures Flows(states[i].core, states[j].core)
  {
    if i < j {
      RunFlows(states, events, i, j - 1);
      FlowAt(states, events, j - 1);
      FlowsTransitive(states[i].core, states[j - 1].core, states[j].core);
    }
  }

  /** Within one session the layer never leaves selective once it is reached. */
  lemma SelectiveAbsorbing(states: seq<State>, events: seq<Event>, i: nat, k: nat, j: nat)
    requires Run(states, events) && i <= k <= j < |states|
    requires states[i].core.sessGen == states[j].core.sessGen && states[i].core.layer == Selective
    ensures states[k].core.layer == Selective && states[k].core.protection == states[i].core.protection
  {
    RunFlows(states, events, i, k);
    RunFlows(states, events, k, j);
  }

  // ----------------------------------------------------------------- off stays off

  /** Off, and no half-finished heal of the present lifecycle generation. */
  predicate Off(s: State) {
    && !s.core.protection
    && forall i :: i in s.tasks && s.tasks[i].HealStopped? ==> s.tasks[i].gen < s.core.lifeGen
  }

  predicate TurnsOff(e: Event) { e.StopCall? || e.RepairCall? || e.CrashCall? }

  lemma PublicOff(s: State, e: Event, t: State)
    requires Inv(s) && PublicStep(s, e, t) && TurnsOff(e)
    ensures Off(t) && t.core.lifeGen == s.core.lifeGen + 1
  {
    assert Quiet(Bumped(s.core));
    StopKeeps(Bumped(s.core));
    forall i | i in t.tasks && t.tasks[i].HealStopped?
      ensures t.tasks[i].gen < t.core.lifeGen
    {
      assert TaskInv(s.core, s.tasks[i]);
    }
  }

  lemma HealOff(s: State, e: Event, t: State)
    requires Quiet(s.core) && Off(s) && HealStep(s, e, t)
    ensures Off(t)
  {
  }

  lemma OtherOff(s: State, e: Event, t: State)
    requires Quiet(s.core) && Off(s) && (RepairStep(s, e, t) || SwapStep(s, e, t) || LayerStep(s, e, t))
    ensures !t.core.protection && t.core.lifeGen == s.core.lifeGen
    ensures forall i :: i in t.tasks && t.tasks[i].HealStopped? ==> i in s.tasks && t.tasks[i] == s.tasks[i]
  {
  }

  /** No step but a public Start turns protection on. */
  lemma OffStep(s: State, e: Event, t: State)
    requires Inv(s) && Off(s) && Step(s, e, t) && !e.StartCall?
    ensures Off(t)
  {
    if PublicStep(s, e, t) {
      if TurnsOff(e) {
        PublicOff(s, e, t);
      }
    } else if HealStep(s, e, t) {
      HealOff(s, e, t);
    } else {
      OtherOff(s, e, t);
    }
  }

  predicate NoStart(events: seq<Event>, i: nat, j: nat) {
    forall k :: i <= k < j && k < |events| ==> !events[k].StartCall?
  }

  lemma {:induction false} OffRun(states: seq<State>, events: seq<Event>, i: nat, j: nat)
    requires Run(states, events) && i <= j < |states| && Off(states[i]) && NoStart(events, i, j)
    ensures Off(states[j])
  {
    if i < j {
      OffRun(states, events, i, j - 1);
      RunQuiet(states, events, j - 1);
      OffStep(states[j - 1], events[j - 1], states[j]);
    }
  }

  /**
    Main result: once a public Stop, Repair or CrashCleanup has returned, protection is off in every
    later state up to the next public Start, whatever heals and repairs were pending or half done.
   */
  lemma StaysOff(states: seq<State>, events: seq<Event>, i: nat, j: nat)
    requires Run(states, events) && i < j < |states| && TurnsOff(events[i]) && NoStart(events, i, j)
    ensures !states[j].core.protection && states[j].core.state == Stopped && NoHandles(states[j].core)
  {
    RunQuiet(states, events, i);
    assert Step(states[i], events[i], states[i + 1]);
    PublicOff(states[i], events[i], states[i + 1]);
    OffRun(states, events, i + 1, j);
    RunQuiet(states, events, j);
  }

  // ------------------------------------------------------- a heal restarts its own stop

  /** The step at which a heal stopped the engine, as its task remembers it. */
  predicate StoppedHere(s: State, e: Event, t: State, i: nat, task: Task) {
    && e == HealStop(i) && task.HealStopped? && s.core.protection && !t.core.protection
    && s.core.lifeGen == task.gen && t.core.lifeGen == task.gen && t.core.sessGen == task.stopped
  }

  lemma HealOrigin(s: State, e: Event, t: State, i: nat)
    requires Quiet(s.core) && HealStep(s, e, t) && i in t.tasks && t.tasks[i].HealStopped?
    ensures (i in s.tasks && s.tasks[i] == t.tasks[i]) || StoppedHere(s, e, t, i, t.tasks[i])
  {
  }

  lemma OtherOrigin(s: State, e: Event, t: State, i: nat)
    requires PublicStep(s, e, t) || RepairStep(s, e, t) || SwapStep(s, e, t) || LayerStep(s, e, t)
    requires i in t.tasks && t.tasks[i].HealStopped?
    ensures i in s.tasks && s.tasks[i] == t.tasks[i]
  {
  }

  lemma {:induction false} HealHistory(states: seq<State>, events: seq<Event>, k: nat, i: nat) returns (j: nat)
    requires Run(states, events) && k < |states| && i in states[k].tasks && states[k].tasks[i].HealStopped?
    ensures j < k && StoppedHere(states[j], events[j], states[j + 1], i, states[k].tasks[i])
  {
    if k == 0 {
      assert false;
    }
    var s, e, t := states[k - 1], events[k - 1], states[k];
    RunQuiet(states, events, k - 1);
    if HealStep(s, e, t) {
      HealOrigin(s, e, t, i);
    } else {
      OtherOrigin(s, e, t, i);
    }
    if i in s.tasks && s.tasks[i] == t.tasks[i] {
      j := HealHistory(states, events, k - 1, i);
    } else {
      j := k - 1;
    }
  }

  lemma RestartNeedsGuard(s: State, i: nat, t: State)
    requires Quiet(s.core) && Step(s, HealRestart(i), t) && !s.core.protection && t.core.protection
    ensures i in s.tasks && RestartGuard(s.core, s.tasks[i])
  {
    assert HealStep(s, HealRestart(i), t);
  }

  lemma GuardHeld(states: seq<State>, events: seq<Event>, k: nat, i: nat)
    requires Run(states, events) && k < |events| && events[k] == HealRestart(i)
    requires !states[k].core.protection && states[k + 1].core.protection
    ensures i in states[k].tasks && states[k].tasks[i].HealStopped? && RestartGuard(states[k].core, states[k].tasks[i])
  {
    RunQuiet(states, events, k);
    assert Step(states[k], events[k], states[k + 1]);
    RestartNeedsGuard(states[k], i, states[k + 1]);
  }

  /** Between two states with equal counters nothing moved them or the protection. */
  lemma StillBetween(states: seq<State>, events: seq<Event>, a: nat, m: nat, k: nat)
    requires Run(states, events) && a <= m <= k < |states|
    requires states[a].core.lifeGen == states[k].core.lifeGen && states[a].core.sessGen == states[k].core.sessGen
    ensures states[m].core.lifeGen == states[k].core.lifeGen && states[m].core.sessGen == states[k].core.sessGen
    ensures states[m].core.protection == states[k].core.protection
  {
    RunFlows(states, events, a, m);
    RunFlows(states, events, m, k);
  }

  /**
    A heal that turns protection on does so only after stopping it itself: in the same lifecycle
    generation, with no other start or stop in between.
   */
  lemma HealRestartsOwnStop(states: seq<State>, events: seq<Event>, k: nat, i: nat) returns (j: nat)
    requires Run(states, events) && k < |events| && events[k] == HealRestart(i)
    requires !states[k].core.protection && states[k + 1].core.protection
    ensures j < k && events[j] == HealStop(i) && states[j].core.protection
    ensures forall m :: j < m <= k ==>
      !states[m].core.protection && states[m].core.lifeGen == states[j].core.lifeGen && states[m].core.sessGen == states[k].core.sessGen
  {
    GuardHeld(states, events, k, i);
    j := HealHistory(states, events, k, i);
    forall m | j < m <= k
      ensures !states[m].core.protection && states[m].core.lifeGen == states[j].core.lifeGen && states[m].core.sessGen == states[k].core.sessGen
    {
      StillBetween(states, events, j + 1, m, k);
    }
  }

  // -------------------------------------------------------------- who can turn it on

  /** Protection comes on only at a public Start or at a heal's own restart. */
  lemma OnlyStartsTurnOn(s: State, e: Event, t: State)
    requires Quiet(s.core) && Step(s, e, t) && !s.core.protection && t.core.protection
    ensures e.StartCall? || e.HealRestart?
  {
  }
}
