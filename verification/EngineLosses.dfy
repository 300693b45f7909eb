/**
  When the engine loses a session, in every run: which steps overwrite a handle, the exact condition
  under which an open session is left without an owner, and the overlap every loss needs.
 */
module EngineLosses {
  import opened Options
  import opened Chain
  import opened EngineCore
  import opened EngineRuns
  import opened EngineSafety
  import opened EngineOwnership
  import opened EngineHandover
  import opened EngineRepairs

  // ------------------------------------------------------------------ unguarded assignments

  /** The handle a step assigns over without looking at it: the last regions of repairs and swaps do. */
  function Overwritten(s: State, e: Event): Option<Handle> {
    match e
    case RepairFinish(i) =>
      if i in s.tasks && s.tasks[i].RepairStarted? && Current(s.core, s.tasks[i].sess) && s.tasks[i].next.Some?
      then Component(s.core, s.tasks[i].want) else None
    case SwapCommit(i) =>
      if i in s.tasks && s.tasks[i].Verified? && InPlace(s.core, s.tasks[i].sess, s.tasks[i].dataplane) && Passed(s.tasks[i].verdict)
      then s.core.des else None
    case SwapEnd(i) =>
      if i in s.tasks && s.tasks[i].Restored? && InPlace(s.core, s.tasks[i].sess, s.tasks[i].dataplane)
      then s.core.des else None
    case _ => None
  }

  predicate InPlace(c: Core, sess: nat, dataplane: Handle) { Current(c, sess) && c.tun == Some(dataplane) }

  /** An open session nobody refers to. */
  predicate Lost(s: State, h: Handle) { h in s.core.open && h !in Owned(s.core) && !TaskHolds(s, h) }

  /** The engine and task i account for what is open after a step, but for what was lost before or is overwritten. */
  predicate Accounts(s: State, t: State, i: int, over: Option<Handle>) {
    forall h :: h in t.core.open && h !in Owned(t.core) && h !in OwnedAt(t, i) ==>
      (h in s.core.open && h !in Owned(s.core) && h !in OwnedAt(s, i)) || over == Some(h)
  }

  lemma PublicAccounts(s: State, e: Event, t: State)
    requires Quiet(s.core) && PublicStep(s, e, t)
    ensures Accounts(s, t, -1, None)
  {
  }

  lemma HealAccounts(s: State, e: Event, t: State)
    requires Quiet(s.core) && HealStep(s, e, t)
    ensures Accounts(s, t, e.t, None)
  {
  }

  lemma LayerAccounts(s: State, e: Event, t: State)
    requires Quiet(s.core) && LayerStep(s, e, t)
    ensures Accounts(s, t, e.t, None)
  {
  }

  lemma AdoptAccounts(c: Core, want: Want, h: Handle)
    ensures h in Owned(Adopted(c, want, h))
    ensures forall x :: x in Owned(c) && x !in Owned(Adopted(c, want, h)) ==> Component(c, want) == Some(x)
  {
    match want
    case WantResolver =>
    case WantHelper(_) =>
    case WantTunnel(_) =>
  }

  lemma FinishAccounts(s: State, i: nat, t: State)
    requires RepairStep(s, RepairFinish(i), t)
    ensures Accounts(s, t, i, Overwritten(s, RepairFinish(i)))
  {
    if Current(s.core, s.tasks[i].sess) && s.tasks[i].next.Some? {
      AdoptAccounts(s.core.(switching := false), s.tasks[i].want, s.tasks[i].next.value);
      AdoptedFrame(s.core.(switching := false), s.tasks[i].want, s.tasks[i].next.value);
    }
  }

  lemma RepairAccounts(s: State, e: Event, t: State)
    requires RepairStep(s, e, t)
    ensures Accounts(s, t, e.t, Overwritten(s, e))
  {
    if e.RepairFinish? {
      FinishAccounts(s, e.t, t);
    }
  }

  lemma CommitAccounts(s: State, i: nat, t: State)
    requires i in s.tasks && s.tasks[i].Verified? && CommitStep(s, i, t)
    ensures Accounts(s, t, i, Overwritten(s, SwapCommit(i)))
  {
  }

  lemma EndAccounts(s: State, i: nat, t: State)
    requires i in s.tasks && s.tasks[i].Restored? && EndStep(s, i, t)
    ensures Accounts(s, t, i, Overwritten(s, SwapEnd(i)))
  {
  }

  lemma SwapAccounts(s: State, e: Event, t: State)
    requires SwapStep(s, e, t)
    ensures Accounts(s, t, e.t, Overwritten(s, e))
  {
    if e.SwapCommit? {
      CommitAccounts(s, e.t, t);
    } else if e.SwapEnd? {
      EndAccounts(s, e.t, t);
    }
  }

  lemma StepAccounts(s: State, e: Event, t: State)
    requires Quiet(s.core) && Step(s, e, t)
    ensures Accounts(s, t, Mover(e), Overwritten(s, e))
  {
    if PublicStep(s, e, t) {
      PublicAccounts(s, e, t);
    } else if HealStep(s, e, t) {
      HealAccounts(s, e, t);
    } else if RepairStep(s, e, t) {
      RepairAccounts(s, e, t);
    } else if SwapStep(s, e, t) {
      SwapAccounts(s, e, t);
    } else {
      LayerAccounts(s, e, t);
    }
  }

  /** A session is lost in a step only by being overwritten in it. */
  lemma LostBefore(s: State, t: State, i: int, over: Option<Handle>, h: Handle)
    requires OthersKept(s, t, i) && Accounts(s, t, i, over) && Lost(t, h)
    ensures Lost(s, h) || over == Some(h)
  {
    assert h !in OwnedAt(t, i);
    assert forall j :: j in s.tasks && j != i ==> h !in TaskOwned(t.tasks[j]);
  }

  /** What an unguarded assignment leaves behind: the new handle is another one, and nothing is closed. */
  predicate Drops(s: State, t: State, h: Handle) {
    h in Owned(s.core) && h !in Owned(t.core) && t.core.open == s.core.open
  }

  lemma AdoptDrops(c: Core, want: Want, h: Handle)
    requires Kinds(c) && Component(c, want).Some? && Component(c, want).value != h
    ensures Component(c, want).value in Owned(c) && Component(c, want).value !in Owned(Adopted(c, want, h))
  {
    match want
    case WantResolver =>
    case WantHelper(_) =>
    case WantTunnel(_) =>
  }

  lemma FinishDrops(s: State, i: nat, t: State)
    requires Inv(s) && Disjoint(s) && RepairStep(s, RepairFinish(i), t) && Overwritten(s, RepairFinish(i)).Some?
    ensures Drops(s, t, Overwritten(s, RepairFinish(i)).value)
  {
    var want, h := s.tasks[i].want, s.tasks[i].next.value;
    var x := Component(s.core, want).value;
    assert x in Owned(s.core) && h in TaskOwned(s.tasks[i]) && x != h;
    AdoptDrops(s.core.(switching := false), want, h);
    AdoptedFrame(s.core.(switching := false), want, h);
  }

  lemma SwapDrops(s: State, e: Event, t: State)
    requires Inv(s) && Disjoint(s) && SwapStep(s, e, t) && Overwritten(s, e).Some?
    ensures Drops(s, t, Overwritten(s, e).value)
  {
    var x := s.core.des.value;
    assert x in Owned(s.core) && TaskOwned(s.tasks[e.t]) == Held(s.tasks[e.t].next);
    assert x !in Held(s.tasks[e.t].next);
  }

  lemma StepDrops(s: State, e: Event, t: State)
    requires Inv(s) && Disjoint(s) && Step(s, e, t) && Overwritten(s, e).Some?
    ensures Drops(s, t, Overwritten(s, e).value)
  {
    if e.RepairFinish? {
      assert RepairStep(s, e, t);
      FinishDrops(s, e.t, t);
    } else {
      assert SwapStep(s, e, t);
      SwapDrops(s, e, t);
    }
  }

  lemma NoTaskHolds(s: State, h: Handle)
    requires Disjoint(s) && h in Owned(s.core)
    ensures !TaskHolds(s, h) && h.id < s.core.next
  {
  }

  /** Exactly at one step of a run: what is lost after it was lost before and not closed, or is overwritten while open. */
  lemma LostAt(states: seq<State>, events: seq<Event>, k: nat, h: Handle)
    requires Run(states, events) && k < |events|
    ensures Lost(states[k + 1], h) <==>
            h in states[k + 1].core.open && h in states[k].core.open && (Lost(states[k], h) || Overwritten(states[k], events[k]) == Some(h))
    ensures Overwritten(states[k], events[k]) == Some(h) ==>
            h in Owned(states[k].core) && (h in states[k + 1].core.open <==> h in states[k].core.open)
  {
    var s, e, t := states[k], events[k], states[k + 1];
    HandsAt(states, events, k);
    assert Step(s, e, t);
    if Lost(t, h) {
      StepAccounts(s, e, t);
      LostBefore(s, t, Mover(e), Overwritten(s, e), h);
    }
    if Overwritten(s, e) == Some(h) {
      StepDrops(s, e, t);
      NoTaskHolds(s, h);
      HoldersBefore(s, t, Mover(e), h);
    } else if Lost(s, h) && h in t.core.open {
      OpenNamed(states, events, k, h);
      HoldersBefore(s, t, Mover(e), h);
    }
  }

  // ----------------------------------------------------------------- over whole runs

  predicate ClosesAt(states: seq<State>, j: nat, h: Handle)
    requires j + 1 < |states|
  {
    h in states[j].core.open && h !in states[j + 1].core.open
  }

  /** No step so far closed this session. */
  predicate NeverClosed(states: seq<State>, k: nat, h: Handle)
    requires k < |states|
  {
    forall j :: 0 <= j < k ==> !ClosesAt(states, j, h)
  }

  lemma {:induction false} HeldWasOpen(states: seq<State>, events: seq<Event>, k: nat, h: Handle) returns (j: nat)
    requires Run(states, events) && k < |states| && (h in Owned(states[k].core) || TaskHolds(states[k], h))
    ensures j <= k && h in states[j].core.open && h.id < states[j].core.next
  {
    if k == 0 {
      assert false;
    }
    HeldAt(states, events, k - 1, h);
    if h in states[k].core.open {
      j := k;
    } else {
      j := HeldWasOpen(states, events, k - 1, h);
    }
  }

  lemma HeldAt(states: seq<State>, events: seq<Event>, k: nat, h: Handle)
    requires Run(states, events) && k < |events| && (h in Owned(states[k + 1].core) || TaskHolds(states[k + 1], h))
    ensures h.id < states[k + 1].core.next
    ensures h in states[k + 1].core.open || h in Owned(states[k].core) || TaskHolds(states[k], h)
  {
    HandsAt(states, events, k);
    HeldStep(states[k], states[k + 1], Mover(events[k]), h);
    RunQuiet(states, events, k + 1);
    RunDisjoint(states, events, k + 1);
    HeldNamed(states[k + 1], h);
  }

  lemma HeldStep(s: State, t: State, i: int, h: Handle)
    requires Handing(s, t, i) && (h in Owned(t.core) || TaskHolds(t, h))
    ensures h in t.core.open || h in Owned(s.core) || TaskHolds(s, h)
  {
    if h !in Owned(t.core) {
      var j :| j in t.tasks && h in TaskOwned(t.tasks[j]);
      if j == i {
        assert h in OwnedAt(t, i);
      }
    }
  }

  lemma HeldNamed(s: State, h: Handle)
    requires Inv(s) && Disjoint(s) && (h in Owned(s.core) || TaskHolds(s, h))
    ensures h.id < s.core.next
  {
    if h !in Owned(s.core) {
      var j :| j in s.tasks && h in TaskOwned(s.tasks[j]);
      assert TaskInv(s.core, s.tasks[j]);
    }
  }

  lemma {:induction false} OpenUntilClosed(states: seq<State>, j: nat, k: nat, h: Handle)
    requires j <= k < |states| && h in states[j].core.open && NeverClosed(states, k, h)
    ensures h in states[k].core.open
  {
    if j < k {
      OpenUntilClosed(states, j, k - 1, h);
      assert !ClosesAt(states, k - 1, h);
    }
  }

  /** A held session is open exactly when no step of the run has closed it. */
  lemma HeldOpenIff(states: seq<State>, events: seq<Event>, k: nat, h: Handle)
    requires Run(states, events) && k < |states| && h in Owned(states[k].core)
    ensures h in states[k].core.open <==> NeverClosed(states, k, h)
  {
    var j := HeldWasOpen(states, events, k, h);
    if NeverClosed(states, k, h) {
      OpenUntilClosed(states, j, k, h);
    } else {
      var m :| 0 <= m < k && ClosesAt(states, m, h);
      ClosedAt(states, events, m, h);
      ClosedForGood(states, events, m + 1, k, h);
    }
  }

  lemma {:induction false} OpenNamed(states: seq<State>, events: seq<Event>, k: nat, h: Handle)
    requires Run(states, events) && k < |states| && h in states[k].core.open
    ensures h.id < states[k].core.next
  {
    if k > 0 {
      OpensAt(states, events, k - 1);
      if h in states[k - 1].core.open {
        OpenNamed(states, events, k - 1, h);
      }
    }
  }

  lemma ClosedAt(states: seq<State>, events: seq<Event>, m: nat, h: Handle)
    requires Run(states, events) && m < |events| && h in states[m].core.open && h !in states[m + 1].core.open
    ensures h.id < states[m + 1].core.next
  {
    OpenNamed(states, events, m, h);
    OpensAt(states, events, m);
  }

  lemma OpenNeverClosed(states: seq<State>, events: seq<Event>, k: nat, h: Handle)
    requires Run(states, events) && k < |states| && h in states[k].core.open
    ensures NeverClosed(states, k, h)
  {
    if !NeverClosed(states, k, h) {
      var m :| 0 <= m < k && ClosesAt(states, m, h);
      ClosedAt(states, events, m, h);
      ClosedForGood(states, events, m + 1, k, h);
    }
  }

  /** Some step of the run before n assigned over this handle. */
  predicate OverwrittenBefore(states: seq<State>, events: seq<Event>, n: nat, h: Handle)
    requires n <= |events| < |states|
  {
    exists k {:trigger events[k]} :: 0 <= k < n && Overwritten(states[k], events[k]) == Some(h)
  }

  lemma {:induction false} BecomesLost(states: seq<State>, n: nat, h: Handle) returns (k: nat)
    requires n < |states| && h !in states[0].core.open && Lost(states[n], h)
    ensures k < n && !Lost(states[k], h) && Lost(states[k + 1], h)
  {
    k := n - 1;
    if Lost(states[k], h) {
      k := BecomesLost(states, n - 1, h);
    }
  }

  lemma LostWasOverwritten(states: seq<State>, events: seq<Event>, n: nat, h: Handle) returns (k: nat)
    requires Run(states, events) && n < |states| && Lost(states[n], h)
    ensures k < n && Overwritten(states[k], events[k]) == Some(h)
  {
    k := BecomesLost(states, n, h);
    LostAt(states, events, k, h);
  }

  lemma {:induction false} StaysLost(states: seq<State>, events: seq<Event>, m: nat, n: nat, h: Handle)
    requires Run(states, events) && m <= n < |states| && Lost(states[m], h) && NeverClosed(states, n, h)
    ensures Lost(states[n], h)
  {
    if m < n {
      StaysLost(states, events, m, n - 1, h);
      assert !ClosesAt(states, n - 1, h);
      LostAt(states, events, n - 1, h);
    }
  }

  /** In any run, a session is lost exactly when some step assigned over its handle and no step has closed it. */
  lemma LostIff(states: seq<State>, events: seq<Event>, n: nat, h: Handle)
    requires Run(states, events) && n < |states|
    ensures Lost(states[n], h) <==> OverwrittenBefore(states, events, n, h) && NeverClosed(states, n, h)
  {
    if Lost(states[n], h) {
      var k := LostWasOverwritten(states, events, n, h);
      OpenNeverClosed(states, events, n, h);
    }
    if OverwrittenBefore(states, events, n, h) && NeverClosed(states, n, h) {
      var k :| 0 <= k < n && Overwritten(states[k], events[k]) == Some(h);
      LostAt(states, events, k, h);
      NeverClosedEarlier(states, k, n, h);
      HeldOpenIff(states, events, k, h);
      StaysLost(states, events, k + 1, n, h);
    }
  }

  lemma NeverClosedEarlier(states: seq<State>, k: nat, n: nat, h: Handle)
    requires k <= n < |states| && NeverClosed(states, n, h)
    ensures NeverClosed(states, k, h)
  {
  }

  lemma CoveredMeans(s: State)
    ensures Covered(s) <==> forall h :: !Lost(s, h)
  {
    if !Covered(s) {
      var h :| h in s.core.open && h !in Owned(s.core) && !TaskHolds(s, h);
      assert Lost(s, h);
    }
  }

  /**
    Main result: in any state of any run, whatever overlaps, every open session has an owner exactly
    when each handle that a step assigned over so far has been closed by some step.
   */
  lemma RunCoveredIff(states: seq<State>, events: seq<Event>, n: nat)
    requires Run(states, events) && n < |states|
    ensures Covered(states[n]) <==>
            forall k {:trigger events[k]} :: 0 <= k < n && Overwritten(states[k], events[k]).Some? ==>
              !NeverClosed(states, n, Overwritten(states[k], events[k]).value)
  {
    CoveredMeans(states[n]);
    if Covered(states[n]) {
      forall k {:trigger events[k]} | 0 <= k < n && Overwritten(states[k], events[k]).Some?
        ensures !NeverClosed(states, n, Overwritten(states[k], events[k]).value)
      {
        LostIff(states, events, n, Overwritten(states[k], events[k]).value);
      }
    } else {
      var h :| Lost(states[n], h);
      LostIff(states, events, n, h);
    }
  }

  /**
    What a stopped engine leaves behind, in any run: with protection off and no session in the hands of
    a task, every session ever started is closed exactly when each handle assigned over was closed.
   */
  lemma LeftOpenIff(states: seq<State>, events: seq<Event>, n: nat)
    requires Run(states, events) && n < |states| && !states[n].core.protection
    requires forall i :: i in states[n].tasks ==> TaskOwned(states[n].tasks[i]) == {}
    ensures states[n].core.open == {} <==>
            forall k {:trigger events[k]} :: 0 <= k < n && Overwritten(states[k], events[k]).Some? ==>
              !NeverClosed(states, n, Overwritten(states[k], events[k]).value)
  {
    RunCoveredIff(states, events, n);
    RunQuiet(states, events, n);
    NothingHeld(states[n]);
  }

  lemma NothingHeld(s: State)
    requires Quiet(s.core) && !s.core.protection && forall i :: i in s.tasks ==> TaskOwned(s.tasks[i]) == {}
    ensures Covered(s) <==> s.core.open == {}
  {
    assert Owned(s.core) == {};
    assert forall h :: !TaskHolds(s, h);
    if Covered(s) {
      assert forall h :: h !in s.core.open;
    }
  }

  /**
    One step of a run: with every open session owned before it, a session is lost exactly by assigning
    over a handle that no step has closed.
   */
  lemma StepLosesIff(states: seq<State>, events: seq<Event>, k: nat)
    requires Run(states, events) && k < |events| && Covered(states[k])
    ensures var over := Overwritten(states[k], events[k]);
            Covered(states[k + 1]) <==> over.None? || !NeverClosed(states, k, over.value)
  {
    CoveredMeans(states[k + 1]);
    var over := Overwritten(states[k], events[k]);
    if over.Some? {
      LostNow(states, events, k, over.value);
    }
    if !Covered(states[k + 1]) {
      var h :| Lost(states[k + 1], h);
      LostNow(states, events, k, h);
    }
  }

  lemma LostNow(states: seq<State>, events: seq<Event>, k: nat, h: Handle)
    requires Run(states, events) && k < |events| && Covered(states[k])
    ensures Lost(states[k + 1], h) <==> Overwritten(states[k], events[k]) == Some(h) && NeverClosed(states, k, h)
  {
    CoveredMeans(states[k]);
    LostAt(states, events, k, h);
    if Overwritten(states[k], events[k]) == Some(h) {
      HeldOpenIff(states, events, k, h);
    }
  }

  /**
    A repair does not look at the handle in place. In any run it is safe when that handle is none or
    the one the repair set out to replace; otherwise it loses a session exactly when no step has
    closed the handle in place.
   */
  lemma AdoptionLosesIff(states: seq<State>, events: seq<Event>, k: nat, i: nat)
    requires Run(states, events) && k < |events| && events[k] == RepairFinish(i) && Covered(states[k])
    requires i in states[k].tasks && states[k].tasks[i].RepairStarted? && states[k].tasks[i].next.Some?
    requires Current(states[k].core, states[k].tasks[i].sess)
    ensures var place := Component(states[k].core, states[k].tasks[i].want);
            && (place.None? || place == states[k].tasks[i].prior ==> Covered(states[k + 1]))
            && (Covered(states[k + 1]) <==> place.None? || !NeverClosed(states, k, place.value))
  {
    RunPriors(states, events, k);
    StepLosesIff(states, events, k);
    var s := states[k];
    assert PriorOk(s, s.tasks[i]);
    var place := Component(s.core, s.tasks[i].want);
    if place.Some? {
      assert place.value in Owned(s.core);
      HeldOpenIff(states, events, k, place.value);
    }
  }

  /** The steps that can replace a component within a session. */
  predicate Replaces(e: Event, want: Want) {
    match want
    case WantResolver => e.RepairFinish?
    case WantHelper(_) => e.RepairFinish? || e.HealRebind? || e.LayerApply? || e.SwapDecide? || e.SwapCommit? || e.SwapEnd?
    case WantTunnel(_) => e.RepairFinish? || e.EscalateRebuild? || e.LayerApply?
  }

  lemma LifecycleReplaces(s: State, e: Event, t: State, want: Want)
    requires Quiet(s.core) && (PublicStep(s, e, t) || HealStep(s, e, t)) && t.core.sessGen == s.core.sessGen
    ensures Component(t.core, want) != Component(s.core, want) ==> Replaces(e, want)
  {
  }

  lemma RepairReplaces(s: State, e: Event, t: State, want: Want)
    requires RepairStep(s, e, t)
    ensures Component(t.core, want) != Component(s.core, want) ==> Replaces(e, want)
  {
  }

  lemma SwapReplaces(s: State, e: Event, t: State, want: Want)
    requires SwapStep(s, e, t)
    ensures Component(t.core, want) != Component(s.core, want) ==> Replaces(e, want)
  {
  }

  lemma LayerReplaces(s: State, e: Event, t: State, want: Want)
    requires LayerStep(s, e, t)
    ensures Component(t.core, want) != Component(s.core, want) ==> Replaces(e, want)
  {
  }

  lemma ReplacingStep(s: State, e: Event, t: State, want: Want)
    requires Quiet(s.core) && Step(s, e, t) && t.core.sessGen == s.core.sessGen && Component(t.core, want) != Component(s.core, want)
    ensures Replaces(e, want)
  {
    if PublicStep(s, e, t) || HealStep(s, e, t) {
      LifecycleReplaces(s, e, t, want);
    } else if RepairStep(s, e, t) {
      RepairReplaces(s, e, t, want);
    } else if SwapStep(s, e, t) {
      SwapReplaces(s, e, t, want);
    } else {
      LayerReplaces(s, e, t, want);
    }
  }

  // ---------------------------------------------------------- a loss needs an overlap

  /** Task i is still the repair that began with these. */
  predicate SameRepair(s: State, i: nat, sess: nat, want: Want, prior: Option<Handle>) {
    i in s.tasks && (Repairing(s.tasks[i]) ==> s.tasks[i].sess == sess && s.tasks[i].want == want && s.tasks[i].prior == prior)
  }

  lemma SameStep(s: State, e: Event, t: State, i: nat, sess: nat, want: Want, prior: Option<Handle>)
    requires SameRepair(s, i, sess, want, prior) && Step(s, e, t) && Mover(e) == i && i in t.tasks
    requires Repairing(s.tasks[i]) || s.tasks[i].Discard?
    ensures SameRepair(t, i, sess, want, prior) && (Repairing(t.tasks[i]) || t.tasks[i].Discard?)
    ensures Repairing(t.tasks[i]) ==> Repairing(s.tasks[i]) && Component(t.core, want) == Component(s.core, want)
  {
    ItsSteps(s, e, t);
  }

  lemma SameAt(states: seq<State>, events: seq<Event>, k: nat, i: nat, sess: nat, want: Want, prior: Option<Handle>)
    requires Run(states, events) && k < |events| && SameRepair(states[k], i, sess, want, prior) && i in states[k + 1].tasks
    requires Repairing(states[k].tasks[i]) || states[k].tasks[i].Discard?
    ensures SameRepair(states[k + 1], i, sess, want, prior) && (Repairing(states[k + 1].tasks[i]) || states[k + 1].tasks[i].Discard?)
    ensures Repairing(states[k + 1].tasks[i]) ==> Repairing(states[k].tasks[i])
    ensures Repairing(states[k + 1].tasks[i]) && Mover(events[k]) == i ==> Component(states[k + 1].core, want) == Component(states[k].core, want)
  {
    if Mover(events[k]) == i {
      assert Step(states[k], events[k], states[k + 1]);
      SameStep(states[k], events[k], states[k + 1], i, sess, want, prior);
    } else {
      StaysAt(states, events, k, i);
    }
  }

  /** Following one repair, any change of its component was the work of another task. */
  lemma {:induction false} ReplacedByOther(states: seq<State>, events: seq<Event>, b: nat, k: nat, i: nat, sess: nat, want: Want, prior: Option<Handle>)
    returns (j: nat)
    requires Run(states, events) && b <= k < |states| && SameRepair(states[b], i, sess, want, prior) && Repairing(states[b].tasks[i])
    requires (forall x :: b <= x <= k ==> i in states[x].tasks) && Repairing(states[k].tasks[i])
    requires states[b].core.sessGen == states[k].core.sessGen && Component(states[b].core, want) == prior
    ensures SameRepair(states[k], i, sess, want, prior)
    ensures Component(states[k].core, want) != prior ==> b <= j < k && Replaces(events[j], want) && Mover(events[j]) != i
  {
    j := b;
    if b < k {
      RunFlows(states, events, b, k - 1);
      RunFlows(states, events, k - 1, k);
      StillRepairing(states, events, b, k - 1, i, sess, want, prior);
      SameAt(states, events, k - 1, i, sess, want, prior);
      j := ReplacedByOther(states, events, b, k - 1, i, sess, want, prior);
      if Component(states[k - 1].core, want) != Component(states[k].core, want) {
        j := k - 1;
        RunQuiet(states, events, k - 1);
        assert Step(states[j], events[j], states[k]);
        ReplacingStep(states[j], events[j], states[k], want);
      }
    }
  }

  lemma {:induction false} StillRepairing(states: seq<State>, events: seq<Event>, b: nat, k: nat, i: nat, sess: nat, want: Want, prior: Option<Handle>)
    requires Run(states, events) && b <= k < |states| && SameRepair(states[b], i, sess, want, prior) && Repairing(states[b].tasks[i])
    requires forall x :: b <= x <= k ==> i in states[x].tasks
    ensures SameRepair(states[k], i, sess, want, prior) && (Repairing(states[k].tasks[i]) || states[k].tasks[i].Discard?)
  {
    if b < k {
      StillRepairing(states, events, b, k - 1, i, sess, want, prior);
      SameAt(states, events, k - 1, i, sess, want, prior);
    }
  }

  lemma BeginsRepair(s: State, i: nat, sess: nat, want: Want, t: State)
    requires RepairStep(s, RepairBegin(i, sess, want), t)
    ensures SameRepair(t, i, sess, want, Component(s.core, want)) && Repairing(t.tasks[i]) && t.core.sessGen == sess
    ensures Component(t.core, want) == Component(s.core, want)
  {
  }

  /**
    In any run, a repair whose adoption loses a session was overlapped: between its begin and its end
    another task of the same session replaced the same component.
   */
  lemma LossNeedsOverlap(states: seq<State>, events: seq<Event>, b: nat, k: nat, i: nat, sess: nat, want: Want) returns (j: nat)
    requires Run(states, events) && b < k < |events| && events[b] == RepairBegin(i, sess, want) && events[k] == RepairFinish(i)
    requires forall x :: b < x <= k ==> i in states[x].tasks
    requires states[k].tasks[i].RepairStarted? && states[k].tasks[i].next.Some? && Current(states[k].core, states[k].tasks[i].sess)
    requires Covered(states[k]) && !Covered(states[k + 1])
    ensures b < j < k && Replaces(events[j], want) && Mover(events[j]) != i
  {
    assert Step(states[b], events[b], states[b + 1]);
    assert RepairStep(states[b], events[b], states[b + 1]);
    BeginsRepair(states[b], i, sess, want, states[b + 1]);
    var prior := Component(states[b].core, want);
    StillRepairing(states, events, b + 1, k, i, sess, want, prior);
    j := ReplacedByOther(states, events, b + 1, k, i, sess, want, prior);
    AdoptionLosesIff(states, events, k, i);
  }

  // -------------------------------------------------------------- the same for a swap

  /** A swap that has taken its old helper down, until it ends. */
  predicate Swapping(task: Task) { task.Verifying? || task.Verified? || task.Restoring? || task.Restored? }

  predicate SameSwap(s: State, i: nat, sess: nat) {
    i in s.tasks && (s.tasks[i].Discard? || (Swapping(s.tasks[i]) && s.tasks[i].sess == sess))
  }

  lemma SwapGoesOn(s: State, e: Event, t: State, i: nat, sess: nat)
    requires SameSwap(s, i, sess) && Step(s, e, t) && Mover(e) == i && i in t.tasks
    ensures SameSwap(t, i, sess) && (Swapping(t.tasks[i]) ==> Swapping(s.tasks[i]) && t.core.des == s.core.des)
  {
    if Swapping(s.tasks[i]) {
      assert SwapStep(s, e, t);
    }
  }

  lemma SwapGoesOnAt(states: seq<State>, events: seq<Event>, k: nat, i: nat, sess: nat)
    requires Run(states, events) && k < |events| && SameSwap(states[k], i, sess) && i in states[k + 1].tasks
    ensures SameSwap(states[k + 1], i, sess)
    ensures Swapping(states[k + 1].tasks[i]) ==>
            Swapping(states[k].tasks[i]) && (Mover(events[k]) == i ==> states[k + 1].core.des == states[k].core.des)
  {
    if Mover(events[k]) == i {
      assert Step(states[k], events[k], states[k + 1]);
      SwapGoesOn(states[k], events[k], states[k + 1], i, sess);
    } else {
      StaysAt(states, events, k, i);
    }
  }

  /** Following one swap from a state without a helper, the helper now in place was put there by another task. */
  lemma {:induction false} HelperByOther(states: seq<State>, events: seq<Event>, b: nat, k: nat, i: nat, sess: nat) returns (j: nat)
    requires Run(states, events) && b <= k < |states| && SameSwap(states[b], i, sess)
    requires (forall x :: b <= x <= k ==> i in states[x].tasks) && Swapping(states[k].tasks[i])
    requires states[b].core.sessGen == states[k].core.sessGen && states[b].core.des.None?
    ensures states[k].core.des.Some? ==>
            b <= j < k && Mover(events[j]) != i && PutsHelper(states[j], events[j], states[j + 1], states[k].core.des.value)
  {
    j := b;
    if b < k {
      SwapFollows(states, events, b, k - 1, i, sess);
      SwapGoesOnAt(states, events, k - 1, i, sess);
      RunFlows(states, events, b, k - 1);
      RunFlows(states, events, k - 1, k);
      j := HelperByOther(states, events, b, k - 1, i, sess);
      if states[k - 1].core.des != states[k].core.des {
        j := k - 1;
        PutAt(states, events, j);
      }
    }
  }

  /** The step puts h in place as the helper. */
  predicate PutsHelper(s: State, e: Event, t: State, h: Handle) {
    && (e.RepairFinish? || e.HealRebind? || e.LayerApply? || e.SwapCommit? || e.SwapEnd?)
    && s.core.des != Some(h) && t.core.des == Some(h)
  }

  lemma PutAt(states: seq<State>, events: seq<Event>, k: nat)
    requires Run(states, events) && k < |events| && states[k].core.sessGen == states[k + 1].core.sessGen
    requires states[k].core.des != states[k + 1].core.des
    ensures states[k + 1].core.des.Some? ==> PutsHelper(states[k], events[k], states[k + 1], states[k + 1].core.des.value)
  {
    RunQuiet(states, events, k);
    assert Step(states[k], events[k], states[k + 1]);
    if events[k].SwapDecide? && states[k + 1].core.des.Some? {
      DecideDrops(states[k], events[k], states[k + 1]);
    }
    var cfg := Config(states[k].core.safe, "");
    ReplacingStep(states[k], events[k], states[k + 1], WantHelper(cfg));
  }

  lemma DecideDrops(s: State, e: Event, t: State)
    requires Step(s, e, t) && e.SwapDecide? && t.core.des.Some?
    ensures t.core.des == s.core.des
  {
    assert SwapStep(s, e, t);
  }

  lemma {:induction false} SwapFollows(states: seq<State>, events: seq<Event>, b: nat, k: nat, i: nat, sess: nat)
    requires Run(states, events) && b <= k < |states| && SameSwap(states[b], i, sess)
    requires forall x :: b <= x <= k ==> i in states[x].tasks
    ensures SameSwap(states[k], i, sess)
  {
    if b < k {
      SwapFollows(states, events, b, k - 1, i, sess);
      SwapGoesOnAt(states, events, k - 1, i, sess);
    }
  }

  /**
    In any run, a swap that loses a session was overlapped: the helper it assigns over was put in place
    by another task after the swap took its old helper down.
   */
  lemma SwapLossNeedsOverlap(states: seq<State>, events: seq<Event>, b: nat, k: nat, i: nat) returns (j: nat)
    requires Run(states, events) && b < k < |events| && events[b].SwapDecide? && events[b].t == i
    requires (events[k] == SwapCommit(i) || events[k] == SwapEnd(i)) && forall x :: b < x <= k ==> i in states[x].tasks
    requires Covered(states[k]) && !Covered(states[k + 1])
    ensures b < j < k && Mover(events[j]) != i && states[k].core.des.Some?
    ensures PutsHelper(states[j], events[j], states[j + 1], states[k].core.des.value) && Lost(states[k + 1], states[k].core.des.value)
  {
    StepLosesIff(states, events, k);
    var h := Overwritten(states[k], events[k]).value;
    HeldOpenIff(states, events, k, h);
    LostAt(states, events, k, h);
    assert Step(states[b], events[b], states[b + 1]);
    assert SwapStep(states[b], events[b], states[b + 1]);
    var sess := states[b].tasks[i].sess;
    SwapFollows(states, events, b + 1, k, i, sess);
    RunFlows(states, events, b, k);
    j := HelperByOther(states, events, b + 1, k, i, sess);
  }
}
