/**
  How sessions change hands between background work and the engine, in every run: a session has one
  holder at a time, a closed session stays closed, and what is handed to be discarded is closed.
 */
module EngineHandover {
  import opened Options
  import opened Chain
  import opened EngineCore
  import opened EngineRuns
  import opened EngineSafety
  import opened EngineOwnership

  /** Which background work an event belongs to; public calls and observations belong to none. */
  function Mover(e: Event): int {
    if e.StartCall? || e.StopCall? || e.RepairCall? || e.CrashCall? || e.Refresh? || e.Observe? then -1 else e.t
  }

  predicate OnlyNew(c: Core, d: Core) { forall h :: h in d.open ==> h in c.open || c.next <= h.id < d.next }

  predicate New(s: State, t: State, h: Handle) { h.id >= s.core.next && h in t.core.open }

  /** A session is held by the engine or by one task, never by two of them. */
  predicate Disjoint(s: State) {
    && (forall h :: h in Owned(s.core) ==> h.id < s.core.next)
    && (forall i :: i in s.tasks ==> TaskOwned(s.tasks[i]) !! Owned(s.core))
    && (forall i, j :: i in s.tasks && j in s.tasks && i != j ==> TaskOwned(s.tasks[i]) !! TaskOwned(s.tasks[j]))
  }

  /**
    In a step of task i, what the engine and that work then hold was theirs before or was just opened;
    a new session holds nothing from before.
   */
  predicate Handing(s: State, t: State, i: int) {
    && OthersSame(s, t, i) && OthersKept(s, t, i) && s.core.next <= t.core.next && OnlyNew(s.core, t.core)
    && (forall h :: h in Owned(t.core) ==> h.id < t.core.next && (h in Owned(s.core) || h in OwnedAt(s, i) || New(s, t, h)))
    && (forall h :: h in OwnedAt(t, i) ==> (h in OwnedAt(s, i) || New(s, t, h)) && h !in Owned(t.core))
    && (s.core.sessGen < t.core.sessGen ==> forall h :: h in Owned(t.core) ==> New(s, t, h))
  }

  // ------------------------------------------------------------------- every step hands over

  lemma PublicHands(s: State, e: Event, t: State)
    requires Inv(s) && Disjoint(s) && PublicStep(s, e, t)
    ensures Handing(s, t, -1)
  {
  }

  lemma HealHands(s: State, e: Event, t: State)
    requires Inv(s) && Disjoint(s) && HealStep(s, e, t)
    ensures Handing(s, t, e.t)
  {
  }

  /** A step in which the engine's own handles stay what they are. */
  lemma TaskHands(s: State, t: State, i: int)
    requires Inv(s) && Disjoint(s) && OthersSame(s, t, i) && OthersKept(s, t, i) && t.core.sessGen == s.core.sessGen
    requires s.core.next <= t.core.next && OnlyNew(s.core, t.core) && Owned(t.core) <= Owned(s.core)
    requires forall h :: h in OwnedAt(t, i) ==> h in OwnedAt(s, i) || New(s, t, h)
    ensures Handing(s, t, i)
  {
  }

  lemma AdoptedOwned(c: Core, want: Want, h: Handle)
    ensures forall x :: x in Owned(Adopted(c, want, h)) ==> x in Owned(c) || x == h
  {
    match want
    case WantResolver =>
    case WantHelper(_) =>
    case WantTunnel(_) =>
  }

  lemma FinishHands(s: State, i: nat, t: State)
    requires Inv(s) && Disjoint(s) && RepairStep(s, RepairFinish(i), t)
    ensures Handing(s, t, i)
  {
    if !Current(s.core, s.tasks[i].sess) || s.tasks[i].next.None? {
      TaskHands(s, t, i);
    } else {
      assert TaskInv(s.core, s.tasks[i]);
      AdoptHands(s, i, s.tasks[i].want, s.tasks[i].next.value, t);
    }
  }

  lemma AdoptHands(s: State, i: nat, want: Want, h: Handle, t: State)
    requires Disjoint(s) && i in s.tasks && TaskOwned(s.tasks[i]) == {h} && h.id < s.core.next
    requires t == State(Adopted(s.core.(switching := false), want, h), s.tasks - {i})
    ensures Handing(s, t, i)
  {
    AdoptedOwned(s.core.(switching := false), want, h);
    AdoptedFrame(s.core.(switching := false), want, h);
  }

  lemma AdoptedFrame(c: Core, want: Want, h: Handle)
    ensures var d := Adopted(c, want, h); d.open == c.open && d.next == c.next && d.sessGen == c.sessGen
  {
    match want
    case WantResolver =>
    case WantHelper(_) =>
    case WantTunnel(_) =>
  }

  lemma RepairHands(s: State, e: Event, t: State)
    requires Inv(s) && Disjoint(s) && RepairStep(s, e, t)
    ensures Handing(s, t, e.t)
  {
    if e.RepairFinish? {
      FinishHands(s, e.t, t);
    } else {
      TaskHands(s, t, e.t);
    }
  }

  lemma CommitHands(s: State, i: nat, t: State)
    requires Inv(s) && Disjoint(s) && i in s.tasks && s.tasks[i].Verified? && CommitStep(s, i, t)
    ensures Handing(s, t, i)
  {
    assert TaskInv(s.core, s.tasks[i]);
    if Current(s.core, s.tasks[i].sess) && s.core.tun == Some(s.tasks[i].dataplane) && Passed(s.tasks[i].verdict) {
      GivenHands(s, i, t);
    } else {
      TaskHands(s, t, i);
    }
  }

  /** Task i ends and the engine takes over what it held. */
  lemma GivenHands(s: State, i: nat, t: State)
    requires Disjoint(s) && i in s.tasks && t.tasks == s.tasks - {i} && Owned(t.core) <= Owned(s.core) + TaskOwned(s.tasks[i])
    requires forall h :: h in TaskOwned(s.tasks[i]) ==> h.id < s.core.next
    requires t.core.open == s.core.open && t.core.next == s.core.next && t.core.sessGen == s.core.sessGen
    ensures Handing(s, t, i)
  {
  }

  lemma EndHands(s: State, i: nat, t: State)
    requires Inv(s) && Disjoint(s) && i in s.tasks && s.tasks[i].Restored? && EndStep(s, i, t)
    ensures Handing(s, t, i)
  {
    assert TaskInv(s.core, s.tasks[i]);
    if Current(s.core, s.tasks[i].sess) && s.core.tun == Some(s.tasks[i].dataplane) {
      GivenHands(s, i, t);
    } else {
      TaskHands(s, t, i);
    }
  }

  lemma DecideHands(s: State, i: nat, result: Option<Strategy>, closeFails: bool, t: State)
    requires Inv(s) && Disjoint(s) && i in s.tasks && s.tasks[i].Scanning? && DecideStep(s, i, result, closeFails, t)
    ensures Handing(s, t, i)
  {
    TaskHands(s, t, i);
  }

  lemma SwapHands(s: State, e: Event, t: State)
    requires Inv(s) && Disjoint(s) && SwapStep(s, e, t)
    ensures Handing(s, t, e.t)
  {
    if e.SwapCommit? {
      CommitHands(s, e.t, t);
    } else if e.SwapEnd? {
      EndHands(s, e.t, t);
    } else if e.SwapDecide? {
      DecideHands(s, e.t, e.result, e.closeFails, t);
    } else {
      TaskHands(s, t, e.t);
    }
  }

  lemma LayerHands(s: State, e: Event, t: State)
    requires Inv(s) && Disjoint(s) && LayerStep(s, e, t)
    ensures Handing(s, t, e.t)
  {
    if e.EscalateRebuild? || e.LayerApply? {
      GrownHands(s, e.t, t);
    } else {
      TaskHands(s, t, e.t);
    }
  }

  /** Task i ends and the engine replaced or added sessions of its own. */
  lemma GrownHands(s: State, i: nat, t: State)
    requires Disjoint(s) && i in s.tasks && t.tasks == s.tasks - {i} && TaskOwned(s.tasks[i]) == {}
    requires forall h :: h in s.core.open && h !in Owned(s.core) ==> h in t.core.open
    requires s.core.next <= t.core.next && OnlyNew(s.core, t.core) && t.core.sessGen == s.core.sessGen
    requires forall h :: h in Owned(t.core) ==> h in Owned(s.core) || (New(s, t, h) && h.id < t.core.next)
    ensures Handing(s, t, i)
  {
  }

  lemma StepHands(s: State, e: Event, t: State)
    requires Inv(s) && Disjoint(s) && Step(s, e, t)
    ensures Handing(s, t, Mover(e))
  {
    if PublicStep(s, e, t) {
      PublicHands(s, e, t);
    } else if HealStep(s, e, t) {
      HealHands(s, e, t);
    } else if RepairStep(s, e, t) {
      RepairHands(s, e, t);
    } else if SwapStep(s, e, t) {
      SwapHands(s, e, t);
    } else {
      LayerHands(s, e, t);
    }
  }

  lemma DisjointKept(s: State, t: State, i: int)
    requires Inv(s) && Disjoint(s) && Handing(s, t, i)
    ensures Disjoint(t)
  {
    forall j | j in t.tasks && j != i
      ensures TaskOwned(t.tasks[j]) !! Owned(t.core) && TaskOwned(t.tasks[j]) !! OwnedAt(t, i)
    {
      assert TaskInv(s.core, s.tasks[j]);
      assert forall h :: h in TaskOwned(s.tasks[j]) ==> h.id < s.core.next;
    }
  }

  /** In every run a session has one holder, and every step hands over. */
  lemma {:induction false} RunDisjoint(states: seq<State>, events: seq<Event>, k: nat)
    requires Run(states, events) && k < |states|
    ensures Disjoint(states[k])
  {
    if k > 0 {
      RunDisjoint(states, events, k - 1);
      RunQuiet(states, events, k - 1);
      StepHands(states[k - 1], events[k - 1], states[k]);
      DisjointKept(states[k - 1], states[k], Mover(events[k - 1]));
    }
  }

  lemma HandsAt(states: seq<State>, events: seq<Event>, k: nat)
    requires Run(states, events) && k < |events|
    ensures Inv(states[k]) && Disjoint(states[k]) && Handing(states[k], states[k + 1], Mover(events[k]))
  {
    RunDisjoint(states, events, k);
    RunQuiet(states, events, k);
    assert Step(states[k], events[k], states[k + 1]);
    StepHands(states[k], events[k], states[k + 1]);
  }

  // ------------------------------------------------------------------- closed stays closed

  lemma OpensAt(states: seq<State>, events: seq<Event>, k: nat)
    requires Run(states, events) && k < |events|
    ensures OnlyNew(states[k].core, states[k + 1].core) && states[k].core.next <= states[k + 1].core.next
  {
    HandsAt(states, events, k);
  }

  lemma {:induction false} ClosedForGood(states: seq<State>, events: seq<Event>, m: nat, n: nat, h: Handle)
    requires Run(states, events) && m <= n < |states| && h !in states[m].core.open && h.id < states[m].core.next
    ensures h !in states[n].core.open && h.id < states[n].core.next
  {
    if m < n {
      ClosedForGood(states, events, m, n - 1, h);
      OpensAt(states, events, n - 1);
    }
  }

  /** A step leaves every task alone that is not its own. */
  lemma StaysAt(states: seq<State>, events: seq<Event>, k: nat, i: nat)
    requires Run(states, events) && k < |events| && i in states[k].tasks && Mover(events[k]) != i
    ensures i in states[k + 1].tasks && states[k + 1].tasks[i] == states[k].tasks[i]
  {
    HandsAt(states, events, k);
  }

  lemma StepDiscards(states: seq<State>, events: seq<Event>, k: nat, i: nat)
    requires Run(states, events) && k < |events| && i in states[k].tasks && states[k].tasks[i].Discard? && events[k] != DiscardClose(i)
    ensures i in states[k + 1].tasks && states[k + 1].tasks[i] == states[k].tasks[i]
  {
    if Mover(events[k]) == i {
      OnlyItsStep(states[k], events[k], states[k + 1], i);
    } else {
      StaysAt(states, events, k, i);
    }
  }

  lemma {:induction false} DiscardWaits(states: seq<State>, events: seq<Event>, f: nat, m: nat, i: nat)
    requires Run(states, events) && f <= m < |states| && i in states[f].tasks && states[f].tasks[i].Discard?
    requires forall k :: f <= k < m ==> events[k] != DiscardClose(i)
    ensures i in states[m].tasks && states[m].tasks[i] == states[f].tasks[i]
  {
    if f < m {
      DiscardWaits(states, events, f, m - 1, i);
      StepDiscards(states, events, m - 1, i);
    }
  }

  /** The only step of a task that holds a session to be discarded is to close it. */
  lemma OnlyItsStep(s: State, e: Event, t: State, i: nat)
    requires Step(s, e, t) && i in s.tasks && s.tasks[i].Discard? && Mover(e) == i
    ensures e == DiscardClose(i)
  {
  }

  lemma DiscardCloses(s: State, i: nat, t: State)
    requires Inv(s) && Step(s, DiscardClose(i), t)
    ensures i in s.tasks && s.tasks[i].Discard?
    ensures s.tasks[i].next.Some? ==> s.tasks[i].next.value !in t.core.open && s.tasks[i].next.value.id < t.core.next
  {
    assert LayerStep(s, DiscardClose(i), t);
    assert TaskInv(s.core, s.tasks[i]);
  }

  /** A session handed to be discarded is closed by the next step of its task and never open again. */
  lemma DiscardedForGood(states: seq<State>, events: seq<Event>, f: nat, m: nat, n: nat, i: nat)
    requires Run(states, events) && f <= m < n < |states| && events[m] == DiscardClose(i)
    requires i in states[f].tasks && states[f].tasks[i].Discard?
    requires forall k :: f <= k < m ==> events[k] != DiscardClose(i)
    ensures states[f].tasks[i].next.Some? ==> states[f].tasks[i].next.value !in states[n].core.open
  {
    DiscardWaits(states, events, f, m, i);
    RunQuiet(states, events, m);
    assert Step(states[m], events[m], states[m + 1]);
    DiscardCloses(states[m], i, states[m + 1]);
    if states[f].tasks[i].next.Some? {
      ClosedForGood(states, events, m + 1, n, states[f].tasks[i].next.value);
    }
  }

  // ---------------------------------------------------------------------- stale work

  /** A stale strategy swap leaves every handle, the configuration and the store alone. */
  lemma StaleSwapHarmless(states: seq<State>, events: seq<Event>, f: nat, m: nat, n: nat, i: nat)
    requires Run(states, events) && f < m < n < |states| && events[m] == DiscardClose(i) && i in states[f].tasks
    requires || (events[f] == SwapCommit(i) && states[f].tasks[i].Verified?)
             || (events[f] == SwapEnd(i) && states[f].tasks[i].Restored?)
    requires !Current(states[f].core, states[f].tasks[i].sess)
    requires forall k :: f < k < m ==> events[k] != DiscardClose(i)
    ensures states[f + 1].core == states[f].core.(switching := false)
    ensures states[f].tasks[i].next.Some? ==> states[f].tasks[i].next.value !in states[n].core.open
  {
    assert Step(states[f], events[f], states[f + 1]);
    assert SwapStep(states[f], events[f], states[f + 1]);
    DiscardedForGood(states, events, f + 1, m, n, i);
  }

  /** Work of a session is stale ever after a public stop, repair or crash cleanup. */
  lemma StopMakesStale(states: seq<State>, events: seq<Event>, b: nat, k: nat, f: nat, sess: nat)
    requires Run(states, events) && b <= k < f < |states| && Current(states[b].core, sess) && TurnsOff(events[k])
    ensures !Current(states[f].core, sess)
  {
    RunFlows(states, events, b, k);
    RunQuiet(states, events, k);
    RunFlows(states, events, k, k + 1);
    if states[k].core.sessGen == sess {
      assert Step(states[k], events[k], states[k + 1]);
      EndsSession(states[k], events[k], states[k + 1]);
    }
    RunFlows(states, events, k + 1, f);
  }

  lemma EndsSession(s: State, e: Event, t: State)
    requires Quiet(s.core) && Step(s, e, t) && TurnsOff(e) && s.core.protection
    ensures s.core.sessGen < t.core.sessGen
  {
    assert PublicStep(s, e, t);
  }
}
