/**
  The whole life of a component repair (offveil-core/internal/engine/component_recovery.go), in every
  run: it remembers the handle it set out to replace, does no harm once its session has ended, and
  closes or hands over what it started.
 */
module EngineRepairs {
  import opened Options
  import opened Chain
  import opened EngineCore
  import opened EngineRuns
  import opened EngineSafety
  import opened EngineOwnership
  import opened EngineHandover

  // --------------------------------------------------------------- the remembered handle

  /**
    The handle a repair set out to replace: until it is closed nobody else holds it, and once the
    repair is stale the engine does not either; after it was closed it stays closed.
   */
  predicate PriorOk(s: State, task: Task) {
    match task
    case RepairOpen(sess, _, prior) => prior.Some? ==>
      prior.value.id < s.core.next && !TaskHolds(s, prior.value) && (sess < s.core.sessGen ==> prior.value !in Owned(s.core))
    case RepairClosed(_, _, prior, _) => prior.Some? ==> prior.value.id < s.core.next && prior.value !in s.core.open
    case RepairStarted(_, _, prior, _, _) => prior.Some? ==> prior.value.id < s.core.next && prior.value !in s.core.open
    case _ => true
  }

  predicate Priors(s: State) { forall i :: i in s.tasks ==> PriorOk(s, s.tasks[i]) }

  /** Whoever holds a session after a step held it before, or it is new. */
  lemma HoldersBefore(s: State, t: State, i: int, h: Handle)
    requires Handing(s, t, i) && h.id < s.core.next
    ensures TaskHolds(t, h) ==> TaskHolds(s, h)
    ensures h in Owned(t.core) ==> h in Owned(s.core) || TaskHolds(s, h)
    ensures s.core.sessGen < t.core.sessGen ==> h !in Owned(t.core)
  {
    if TaskHolds(t, h) {
      var j :| j in t.tasks && h in TaskOwned(t.tasks[j]);
      if j == i {
        assert h in OwnedAt(s, i);
      }
    }
  }

  lemma PriorStays(s: State, t: State, i: int, task: Task)
    requires PriorOk(s, task) && TaskInv(s.core, task) && Handing(s, t, i) && s.core.sessGen <= t.core.sessGen
    ensures PriorOk(t, task)
  {
    if (task.RepairOpen? || task.RepairClosed? || task.RepairStarted?) && task.prior.Some? {
      HoldersBefore(s, t, i, task.prior.value);
    }
  }

  lemma BeginPrior(s: State, i: nat, sess: nat, want: Want, t: State)
    requires Disjoint(s) && RepairStep(s, RepairBegin(i, sess, want), t)
    ensures PriorOk(t, t.tasks[i])
  {
    var prior := Component(s.core, want);
    if prior.Some? {
      assert prior.value in Owned(s.core);
      forall j | j in t.tasks
        ensures prior.value !in TaskOwned(t.tasks[j])
      {
      }
    }
  }

  lemma RepairPrior(s: State, e: Event, t: State)
    requires Disjoint(s) && RepairStep(s, e, t) && (e.t in s.tasks ==> PriorOk(s, s.tasks[e.t]))
    requires s.core.next <= t.core.next && OnlyNew(s.core, t.core)
    ensures e.t in t.tasks ==> PriorOk(t, t.tasks[e.t])
  {
    if e.RepairBegin? {
      BeginPrior(s, e.t, e.sess, e.want, t);
    }
  }

  /** Only a repair's own steps make repair tasks. */
  lemma NoRepairTask(s: State, e: Event, t: State)
    requires Step(s, e, t) && !RepairStep(s, e, t) && Mover(e) in t.tasks
    ensures var task := t.tasks[Mover(e)]; !task.RepairOpen? && !task.RepairClosed? && !task.RepairStarted?
  {
  }

  lemma PriorsKept(s: State, e: Event, t: State)
    requires Inv(s) && Disjoint(s) && Priors(s) && Step(s, e, t) && Handing(s, t, Mover(e)) && s.core.sessGen <= t.core.sessGen
    ensures Priors(t)
  {
    forall j | j in t.tasks
      ensures PriorOk(t, t.tasks[j])
    {
      if j != Mover(e) {
        PriorStays(s, t, Mover(e), s.tasks[j]);
      } else if RepairStep(s, e, t) {
        RepairPrior(s, e, t);
      } else {
        NoRepairTask(s, e, t);
      }
    }
  }

  lemma PriorsAt(states: seq<State>, events: seq<Event>, k: nat)
    requires Run(states, events) && k < |events| && Priors(states[k])
    ensures Priors(states[k + 1])
  {
    HandsAt(states, events, k);
    FlowAt(states, events, k);
    assert Step(states[k], events[k], states[k + 1]);
    PriorsKept(states[k], events[k], states[k + 1]);
  }

  lemma {:induction false} RunPriors(states: seq<State>, events: seq<Event>, k: nat)
    requires Run(states, events) && k < |states|
    ensures Priors(states[k])
  {
    if k > 0 {
      RunPriors(states, events, k - 1);
      PriorsAt(states, events, k - 1);
    }
  }

  // ------------------------------------------------------------------- stale repairs

  predicate Repairing(task: Task) { task.RepairOpen? || task.RepairClosed? || task.RepairStarted? }

  /** Nothing of the engine changed, and nothing it holds was closed. */
  predicate Unharmed(c: Core, d: Core) {
    d == c.(open := d.open, next := d.next) && forall h :: h in Owned(c) && h in c.open ==> h in d.open
  }

  lemma StaleStep(s: State, e: Event, t: State)
    requires Inv(s) && Disjoint(s) && Priors(s) && RepairStep(s, e, t) && e.t in s.tasks && !Current(s.core, s.tasks[e.t].sess)
    ensures Unharmed(s.core, t.core)
  {
    assert PriorOk(s, s.tasks[e.t]) && TaskInv(s.core, s.tasks[e.t]);
    assert TaskOwned(s.tasks[e.t]) !! Owned(s.core);
  }

  lemma DiscardStep(s: State, i: nat, t: State)
    requires Disjoint(s) && LayerStep(s, DiscardClose(i), t)
    ensures Unharmed(s.core, t.core)
  {
    assert TaskOwned(s.tasks[i]) !! Owned(s.core);
  }

  lemma ItsSteps(s: State, e: Event, t: State)
    requires Step(s, e, t) && Mover(e) in s.tasks && (Repairing(s.tasks[Mover(e)]) || s.tasks[Mover(e)].Discard?)
    ensures if s.tasks[Mover(e)].Discard? then LayerStep(s, e, t) && e.DiscardClose? else RepairStep(s, e, t) && e.t == Mover(e)
  {
  }

  /**
    Once the session of a repair has ended, none of its remaining steps, in any run, changes a handle
    or a configuration of the engine or closes a session the engine holds: neither the late close of
    the old handle, nor the start, nor undoing it, nor the last region, nor discarding.
   */
  lemma StaleRepairHarmless(states: seq<State>, events: seq<Event>, k: nat, i: nat)
    requires Run(states, events) && k < |events| && Mover(events[k]) == i && i in states[k].tasks
    requires states[k].tasks[i].Discard? || (Repairing(states[k].tasks[i]) && !Current(states[k].core, states[k].tasks[i].sess))
    ensures Unharmed(states[k].core, states[k + 1].core)
  {
    HandsAt(states, events, k);
    RunPriors(states, events, k);
    var s, e, t := states[k], events[k], states[k + 1];
    assert Step(s, e, t);
    ItsSteps(s, e, t);
    if s.tasks[i].Discard? {
      DiscardStep(s, i, t);
    } else {
      StaleStep(s, e, t);
    }
  }

  /** Where the session h that a repair started is while the repair goes on. */
  predicate Tracks(s: State, i: nat, h: Handle) {
    && i in s.tasks && h.id < s.core.next && (s.tasks[i].RepairStarted? || s.tasks[i].Discard?)
    && (s.tasks[i].next == Some(h) || h !in s.core.open)
  }

  predicate Adopts(s: State, e: Event, t: State, i: nat, h: Handle) {
    && e == RepairFinish(i) && i in s.tasks && s.tasks[i].RepairStarted? && Current(s.core, s.tasks[i].sess)
    && Component(t.core, s.tasks[i].want) == Some(h)
  }

  lemma TrackStep(s: State, e: Event, t: State, i: nat, h: Handle)
    requires Inv(s) && Tracks(s, i, h) && Step(s, e, t) && Mover(e) == i
    ensures if i in t.tasks then Tracks(t, i, h) else h !in t.core.open || Adopts(s, e, t, i, h)
  {
    assert TaskInv(s.core, s.tasks[i]);
    ItsSteps(s, e, t);
    if s.tasks[i].RepairStarted? {
      assert RepairStep(s, e, t);
    }
  }

  lemma TrackAt(states: seq<State>, events: seq<Event>, k: nat, i: nat, h: Handle)
    requires Run(states, events) && k < |events| && Tracks(states[k], i, h)
    ensures if i in states[k + 1].tasks then Tracks(states[k + 1], i, h)
            else h !in states[k + 1].core.open || Adopts(states[k], events[k], states[k + 1], i, h)
  {
    HandsAt(states, events, k);
    if Mover(events[k]) == i {
      assert Step(states[k], events[k], states[k + 1]);
      TrackStep(states[k], events[k], states[k + 1], i, h);
    }
  }

  lemma {:induction false} TrackRun(states: seq<State>, events: seq<Event>, a: nat, z: nat, i: nat, h: Handle)
    requires Run(states, events) && a <= z < |states| && Tracks(states[a], i, h)
    requires forall x :: a <= x <= z ==> i in states[x].tasks
    ensures Tracks(states[z], i, h)
  {
    if a < z {
      TrackRun(states, events, a, z - 1, i, h);
      TrackAt(states, events, z - 1, i, h);
    }
  }

  lemma StartTracks(s: State, i: nat, t: State)
    requires RepairStep(s, RepairStart(i), t) && t.tasks[i].next.Some?
    ensures Tracks(t, i, t.tasks[i].next.value)
  {
  }

  /**
    The session a repair starts has one of two ends, in every run: when the repair ends it is adopted
    by the session it was meant for, or it is closed and never open again.
   */
  lemma AdoptedOrClosed(states: seq<State>, events: seq<Event>, a: nat, z: nat, n: nat, i: nat)
    requires Run(states, events) && a < z < n < |states| && events[a] == RepairStart(i)
    requires i in states[a + 1].tasks && states[a + 1].tasks[i].RepairStarted? && states[a + 1].tasks[i].next.Some?
    requires (forall x :: a < x <= z ==> i in states[x].tasks) && i !in states[z + 1].tasks
    ensures var h := states[a + 1].tasks[i].next.value;
            Adopts(states[z], events[z], states[z + 1], i, h) || h !in states[n].core.open
  {
    var h := states[a + 1].tasks[i].next.value;
    assert Step(states[a], events[a], states[a + 1]);
    assert RepairStep(states[a], events[a], states[a + 1]);
    StartTracks(states[a], i, states[a + 1]);
    TrackRun(states, events, a + 1, z, i, h);
    TrackAt(states, events, z, i, h);
    if h !in states[z + 1].core.open {
      OpensAt(states, events, z);
      ClosedForGood(states, events, z + 1, n, h);
    }
  }
}
