/**
  The strategy swap of offveil-core/internal/engine/strategy_recovery.go over whole runs: it changes
  helper, configuration and store together or not at all, only for a strategy the scan accepted and
  the real helper, the control quorum and the gateway confirmed.
 */
module EngineSwap {
  import opened Options
  import opened Chain
  import opened EngineCore
  import opened EngineRuns
  import opened EngineSafety
  import opened EngineOwnership
  import opened EngineVerdict

  // ------------------------------------------------------------- what may be remembered

  lemma PublicSaved(s: State, e: Event, t: State)
    requires PublicStep(s, e, t)
    ensures t.core.saved == s.core.saved
  {
  }

  lemma HealSaved(s: State, e: Event, t: State)
    requires HealStep(s, e, t)
    ensures t.core.saved == s.core.saved
  {
  }

  lemma LifecycleSaved(s: State, e: Event, t: State)
    requires PublicStep(s, e, t) || HealStep(s, e, t)
    ensures t.core.saved == s.core.saved
  {
    if PublicStep(s, e, t) {
      PublicSaved(s, e, t);
    } else {
      HealSaved(s, e, t);
    }
  }

  lemma RepairSaved(s: State, e: Event, t: State)
    requires RepairStep(s, e, t)
    ensures t.core.saved == s.core.saved
  {
  }

  lemma LayerSaved(s: State, e: Event, t: State)
    requires LayerStep(s, e, t)
    ensures t.core.saved == s.core.saved
  {
  }

  lemma SwapSaved(s: State, e: Event, t: State)
    requires SwapStep(s, e, t) && t.core.saved != s.core.saved
    ensures e.SwapCommit? && e.t in s.tasks && s.tasks[e.t].Verified?
    ensures var task := s.tasks[e.t];
            && Passed(task.verdict) && Current(s.core, task.sess) && s.core.tun == Some(task.dataplane)
            && t.core.saved == s.core.saved[s.core.scope := ForCache(task.winner.strategy)] && t.core.desCfg == Some(task.winner) && t.core.des == task.next
  {
  }

  /** The strategy store changes only when a confirmed swap of the current session commits. */
  lemma SavedOnlyByCommit(s: State, e: Event, t: State)
    requires Step(s, e, t) && t.core.saved != s.core.saved
    ensures e.SwapCommit? && e.t in s.tasks && s.tasks[e.t].Verified?
    ensures var task := s.tasks[e.t];
            && task.verdict.up && task.verdict.target && task.verdict.gateway && TwoOpen(task.verdict.controls)
            && Current(s.core, task.sess) && s.core.tun == Some(task.dataplane)
            && t.core.saved == s.core.saved[s.core.scope := ForCache(task.winner.strategy)] && t.core.desCfg == Some(task.winner) && t.core.des == task.next
  {
    if PublicStep(s, e, t) || HealStep(s, e, t) {
      LifecycleSaved(s, e, t);
    } else if RepairStep(s, e, t) {
      RepairSaved(s, e, t);
    } else if LayerStep(s, e, t) {
      LayerSaved(s, e, t);
    } else {
      SwapSaved(s, e, t);
      QuorumMeans(s.tasks[e.t].verdict.controls);
    }
  }

  // ---------------------------------------------------------- where the winner comes from

  predicate Swapping(task: Task) { task.Verifying? || task.Verified? }

  /** The decision that started a swap: an accepted scan, on the stack the scan was made for. */
  predicate Decided(s: State, e: Event, i: nat, task: Task)
    requires Swapping(task)
  {
    && e == SwapDecide(i, Some(task.winner.strategy), false) && i in s.tasks && s.tasks[i].Scanning?
    && Current(s.core, task.sess) && StackUnchanged(s.core, s.tasks[i]) && s.tasks[i].cfg == task.cfg
    && s.tasks[i].sess == task.sess && task.winner == task.cfg.(strategy := task.winner.strategy)
  }

  predicate SameSwap(a: Task, b: Task)
    requires Swapping(b)
  {
    Swapping(a) && a.sess == b.sess && a.dataplane == b.dataplane && a.cfg == b.cfg && a.winner == b.winner
  }

  lemma OtherSwapping(s: State, e: Event, t: State, i: nat)
    requires PublicStep(s, e, t) || HealStep(s, e, t) || RepairStep(s, e, t) || LayerStep(s, e, t)
    requires i in t.tasks && Swapping(t.tasks[i])
    ensures i in s.tasks && s.tasks[i] == t.tasks[i]
  {
  }

  lemma SwapOrigin(s: State, e: Event, t: State, i: nat)
    requires SwapStep(s, e, t) && i in t.tasks && Swapping(t.tasks[i])
    ensures (i in s.tasks && SameSwap(s.tasks[i], t.tasks[i])) || Decided(s, e, i, t.tasks[i])
  {
  }

  /** Every strategy under verification was accepted by a scan of the same task. */
  lemma {:induction false} SwapHistory(states: seq<State>, events: seq<Event>, k: nat, i: nat) returns (j: nat)
    requires Run(states, events) && k < |states| && i in states[k].tasks && Swapping(states[k].tasks[i])
    ensures j < k && Decided(states[j], events[j], i, states[k].tasks[i])
  {
    if k == 0 {
      assert false;
    }
    var s, e, t := states[k - 1], events[k - 1], states[k];
    if SwapStep(s, e, t) {
      SwapOrigin(s, e, t, i);
    } else {
      OtherSwapping(s, e, t, i);
    }
    if Decided(s, e, i, t.tasks[i]) {
      j := k - 1;
    } else {
      j := SwapHistory(states, events, k - 1, i);
    }
  }

  /**
    The store in any run: whatever it holds beyond its first content is a strategy that some scan
    accepted and that the helper, two controls and the gateway then confirmed in the same session.
   */
  lemma SavedWasConfirmed(states: seq<State>, events: seq<Event>, k: nat) returns (j: nat)
    requires Run(states, events) && k < |events| && states[k + 1].core.saved != states[k].core.saved
    ensures events[k].SwapCommit? && events[k].t in states[k].tasks && states[k].tasks[events[k].t].Verified?
    ensures j < k && Decided(states[j], events[j], events[k].t, states[k].tasks[events[k].t])
    ensures var v := states[k].tasks[events[k].t].verdict;
            v.up && v.target && v.gateway && exists a, b :: 0 <= a < b < |v.controls| && v.controls[a] && v.controls[b]
    ensures states[k + 1].core.saved ==
            states[k].core.saved[states[k].core.scope := ForCache(states[k].tasks[events[k].t].winner.strategy)]
  {
    assert Step(states[k], events[k], states[k + 1]);
    SavedOnlyByCommit(states[k], events[k], states[k + 1]);
    j := SwapHistory(states, events, k, events[k].t);
  }

  // -------------------------------------------------------------------- all or nothing

  predicate HelperOn(o: Option<Handle>, cfg: Config) { o.Some? ==> o.value.Helper? && o.value.cfg == cfg }

  /** Everything the swap stands for changed together. */
  predicate Committed(c: Core, d: Core, winner: Config) {
    d.des.Some? && HelperOn(d.des, winner) && d.desCfg == Some(winner) && d.saved == Remembered(c, winner.strategy)
  }

  /** Nothing changed: the old configuration is in force and only it was restarted. */
  predicate RolledBack(c: Core, d: Core, cfg: Config) {
    HelperOn(d.des, cfg) && d.desCfg == Some(cfg) && d.saved == c.saved
  }

  lemma CommitOutcome(s: State, i: nat, t: State)
    requires Inv(s) && Ties(s) && i in s.tasks && s.tasks[i].Verified? && CommitStep(s, i, t)
    requires (s.tasks[i].verdict.up ==> s.tasks[i].next.Some?) && BusyNow(s.core, s.tasks[i])
    ensures var v := s.tasks[i].verdict;
            var good := v.up && v.target && v.gateway && exists a, b :: 0 <= a < b < |v.controls| && v.controls[a] && v.controls[b];
            if good && Current(s.core, s.tasks[i].sess) && s.core.tun == Some(s.tasks[i].dataplane)
            then Committed(s.core, t.core, s.tasks[i].winner) else RolledBack(s.core, t.core, s.tasks[i].cfg)
  {
    QuorumMeans(s.tasks[i].verdict.controls);
    assert TaskInv(s.core, s.tasks[i]);
    assert Tie(s.core, s.tasks[i]);
  }

  lemma EndOutcome(s: State, i: nat, t: State)
    requires Inv(s) && Ties(s) && i in s.tasks && s.tasks[i].Restored? && EndStep(s, i, t) && BusyNow(s.core, s.tasks[i])
    ensures RolledBack(s.core, t.core, s.tasks[i].cfg)
  {
    assert TaskInv(s.core, s.tasks[i]);
    assert Tie(s.core, s.tasks[i]);
  }

  /** A verdict of success comes with the helper that earned it. */
  predicate Earned(s: State) {
    forall i :: i in s.tasks && s.tasks[i].Verified? && s.tasks[i].verdict.up ==> s.tasks[i].next.Some?
  }

  lemma OtherEarned(s: State, e: Event, t: State)
    requires Earned(s) && (PublicStep(s, e, t) || HealStep(s, e, t) || RepairStep(s, e, t) || LayerStep(s, e, t))
    ensures Earned(t)
  {
  }

  lemma SwapEarned(s: State, e: Event, t: State)
    requires Earned(s) && SwapStep(s, e, t)
    ensures Earned(t)
  {
  }

  lemma {:induction false} RunEarned(states: seq<State>, events: seq<Event>, k: nat)
    requires Run(states, events) && k < |states|
    ensures Earned(states[k])
  {
    if k > 0 {
      RunEarned(states, events, k - 1);
      var s, e, t := states[k - 1], events[k - 1], states[k];
      if SwapStep(s, e, t) {
        SwapEarned(s, e, t);
      } else {
        OtherEarned(s, e, t);
      }
    }
  }

  /**
    All or nothing: when a swap of the current session leaves its last region, either helper,
    configuration and store all moved to the winner, or none of them did and the old
    configuration is what runs or will be restarted.
   */
  lemma SwapAllOrNothing(states: seq<State>, events: seq<Event>, k: nat, i: nat)
    requires AloneRun(states, events) && k < |events| && (events[k] == SwapCommit(i) || events[k] == SwapEnd(i))
    requires i in states[k].tasks && BusyNow(states[k].core, states[k].tasks[i])
    ensures states[k].tasks[i].Verified? || states[k].tasks[i].Restored?
    ensures states[k].core.desCfg == Some(states[k].tasks[i].cfg)
    ensures || RolledBack(states[k].core, states[k + 1].core, states[k].tasks[i].cfg)
            || (&& states[k].tasks[i].Verified? && Committed(states[k].core, states[k + 1].core, states[k].tasks[i].winner)
                && var v := states[k].tasks[i].verdict;
                   v.up && v.target && v.gateway && exists a, b :: 0 <= a < b < |v.controls| && v.controls[a] && v.controls[b])
  {
    RunLone(states, events, k);
    RunQuiet(states, events, k);
    RunEarned(states, events, k);
    LastRegion(states[k], events[k], states[k + 1], i);
  }

  lemma LastRegion(s: State, e: Event, t: State, i: nat)
    requires Inv(s) && Ties(s) && Earned(s) && Step(s, e, t) && (e == SwapCommit(i) || e == SwapEnd(i))
    requires i in s.tasks && BusyNow(s.core, s.tasks[i])
    ensures s.tasks[i].Verified? || s.tasks[i].Restored?
    ensures s.core.desCfg == Some(s.tasks[i].cfg)
    ensures || RolledBack(s.core, t.core, s.tasks[i].cfg)
            || (&& s.tasks[i].Verified? && Committed(s.core, t.core, s.tasks[i].winner)
                && var v := s.tasks[i].verdict;
                   v.up && v.target && v.gateway && exists a, b :: 0 <= a < b < |v.controls| && v.controls[a] && v.controls[b])
  {
    assert SwapStep(s, e, t);
    assert Tie(s.core, s.tasks[i]);
    if e.SwapCommit? {
      CommitOutcome(s, i, t);
    } else {
      EndOutcome(s, i, t);
    }
  }

  // -------------------------------------------------- each region of a swap, in every run

  /** The work belongs to the session that is running now. */
  predicate Live(c: Core, sess: nat) { sess == c.sessGen && c.protection && (c.state == Active || c.state == Degraded) }

  /**
    The decision after a scan: the old helper goes down exactly when the session and the scan are
    still the ones it was made for, nothing of the stack changed, no other switch is under way and the
    scan found a strategy; otherwise no session is closed and no handle moves.
   */
  lemma DecideIff(states: seq<State>, events: seq<Event>, k: nat, i: nat, result: Option<Strategy>)
    requires Run(states, events) && k < |events| && events[k] == SwapDecide(i, result, false)
    ensures i in states[k].tasks && states[k].tasks[i].Scanning?
    ensures var c, d, task := states[k].core, states[k + 1].core, states[k].tasks[i];
            if && Live(c, task.sess) && c.scan == Some(task.token) && c.des == Some(task.original) && c.tun == Some(task.dataplane)
               && !c.switching && c.layer == Selective && result.Some?
            then && d.open == c.open - {task.original} && d.des.None? && d.switching && i in states[k + 1].tasks
                 && states[k + 1].tasks[i] == Verifying(task.sess, task.dataplane, task.cfg, Config(result.value, task.cfg.connIP))
            else d.open == c.open && d.des == c.des && i !in states[k + 1].tasks
    ensures states[k + 1].core.desCfg == states[k].core.desCfg && states[k + 1].core.tun == states[k].core.tun && states[k + 1].core.saved == states[k].core.saved
  {
    assert Step(states[k], events[k], states[k + 1]);
    assert SwapStep(states[k], events[k], states[k + 1]);
  }

  /**
    The commit: with the session and its gateway still in place, helper, configuration and store move to
    the winner exactly when the helper came up, it and the gateway opened the target and two controls
    opened; otherwise the trial helper is closed and the old configuration is restored next. A swap that
    came too late moves nothing and hands its helper over to be closed.
   */
  lemma CommitIff(states: seq<State>, events: seq<Event>, k: nat, i: nat)
    requires Run(states, events) && k < |events| && events[k] == SwapCommit(i)
    ensures i in states[k].tasks && states[k].tasks[i].Verified?
    ensures var c, d, task, v := states[k].core, states[k + 1].core, states[k].tasks[i], states[k].tasks[i].verdict;
            var good := v.up && v.target && v.gateway && exists a, b :: 0 <= a < b < |v.controls| && v.controls[a] && v.controls[b];
            if Live(c, task.sess) && c.tun == Some(task.dataplane) && good
            then && d.des == task.next && d.des.Some? && d.desCfg == Some(task.winner) && !d.switching && d.scan.None? && d.open == c.open
                 && Keeps(c, d, ForCache(task.winner.strategy)) && i !in states[k + 1].tasks
            else && d.des == c.des && d.desCfg == c.desCfg && d.saved == c.saved && i in states[k + 1].tasks
                 && if Live(c, task.sess) && c.tun == Some(task.dataplane)
                    then d.open == c.open - Held(task.next) && states[k + 1].tasks[i] == Restoring(task.sess, task.dataplane, task.cfg)
                    else d.open == c.open && !d.switching && states[k + 1].tasks[i] == Discard(task.next)
  {
    assert Step(states[k], events[k], states[k + 1]);
    assert SwapStep(states[k], events[k], states[k + 1]);
    RunEarned(states, events, k);
    QuorumMeans(states[k].tasks[i].verdict.controls);
  }

  /** The store of an open session remembers this strategy for the present network, unless it is empty. */
  predicate Keeps(c: Core, d: Core, s: Strategy) {
    if c.storeOpen && s.id != "" && s.args != [] then d.saved == c.saved[c.scope := s] else d.saved == c.saved
  }

  /** The rollback: with session and gateway in place the helper on the old configuration, or none, takes its place. */
  lemma EndIff(states: seq<State>, events: seq<Event>, k: nat, i: nat)
    requires Run(states, events) && k < |events| && events[k] == SwapEnd(i)
    ensures i in states[k].tasks && states[k].tasks[i].Restored?
    ensures var c, d, task := states[k].core, states[k + 1].core, states[k].tasks[i];
            && d.desCfg == c.desCfg && d.saved == c.saved && d.open == c.open && !d.switching
            && (task.next.Some? ==> task.next.value.Helper? && task.next.value.cfg == task.cfg)
            && if Live(c, task.sess) && c.tun == Some(task.dataplane) then d.des == task.next && d.scan.None? && i !in states[k + 1].tasks
               else d.des == c.des && i in states[k + 1].tasks && states[k + 1].tasks[i] == Discard(task.next)
  {
    RunQuiet(states, events, k);
    assert TaskInv(states[k].core, states[k].tasks[i]);
    assert Step(states[k], events[k], states[k + 1]);
    assert SwapStep(states[k], events[k], states[k + 1]);
  }

  lemma LifecycleStrategy(s: State, e: Event, t: State)
    requires Quiet(s.core) && (PublicStep(s, e, t) || HealStep(s, e, t)) && t.core.sessGen == s.core.sessGen
    ensures s.core.desCfg.Some? && t.core.desCfg.Some? ==> t.core.desCfg.value.strategy == s.core.desCfg.value.strategy
  {
  }

  lemma OtherStrategy(s: State, e: Event, t: State)
    requires Quiet(s.core) && (RepairStep(s, e, t) || LayerStep(s, e, t))
    ensures s.core.desCfg.Some? && t.core.desCfg.Some? ==> t.core.desCfg.value.strategy == s.core.desCfg.value.strategy
  {
  }

  lemma SwapStrategy(s: State, e: Event, t: State)
    requires SwapStep(s, e, t) && s.core.desCfg != t.core.desCfg
    ensures e.SwapCommit?
  {
  }

  /** Within a session the strategy of the helper changes only when a confirmed swap commits. */
  lemma StrategyOnlyByCommit(states: seq<State>, events: seq<Event>, k: nat)
    requires Run(states, events) && k < |events| && states[k].core.sessGen == states[k + 1].core.sessGen
    requires states[k].core.desCfg.Some? && states[k + 1].core.desCfg.Some?
    requires states[k].core.desCfg.value.strategy != states[k + 1].core.desCfg.value.strategy
    ensures events[k].SwapCommit? && events[k].t in states[k].tasks && states[k].tasks[events[k].t].Verified?
    ensures var v := states[k].tasks[events[k].t].verdict;
            v.up && v.target && v.gateway && exists a, b :: 0 <= a < b < |v.controls| && v.controls[a] && v.controls[b]
    ensures states[k + 1].core.desCfg == Some(states[k].tasks[events[k].t].winner)
  {
    RunQuiet(states, events, k);
    var s, e, t := states[k], events[k], states[k + 1];
    assert Step(s, e, t);
    if PublicStep(s, e, t) || HealStep(s, e, t) {
      LifecycleStrategy(s, e, t);
    } else if RepairStep(s, e, t) || LayerStep(s, e, t) {
      OtherStrategy(s, e, t);
    } else {
      SwapStrategy(s, e, t);
      CommitIff(states, events, k, e.t);
    }
  }

  // ---------------------------------------------------------- what a later start runs

  /** The step brought a helper up by starting a layer. */
  predicate StartsLayer(s: State, e: Event, t: State) {
    (e.StartCall? || e.HealRestart? || e.LayerApply?) && t.core.des.Some? && t.core.des != s.core.des
  }

  lemma LayerChooses(s: State, e: Event, t: State)
    requires Quiet(s.core) && Step(s, e, t) && StartsLayer(s, e, t)
    ensures t.core.des.value.Helper? && t.core.desCfg == Some(t.core.des.value.cfg) && Chosen(t.core, t.core.desCfg.value)
    ensures t.core.saved == s.core.saved && t.core.safe == s.core.safe
  {
    if PublicStep(s, e, t) {
      LifecycleSaved(s, e, t);
    } else if HealStep(s, e, t) {
      LifecycleSaved(s, e, t);
    } else {
      assert LayerStep(s, e, t);
    }
  }

  lemma {:induction false} SavedKept(states: seq<State>, events: seq<Event>, a: nat, m: nat, scope: string)
    requires Run(states, events) && a <= m < |states| && scope in states[a].core.saved
    requires forall k :: a <= k < m ==> !(events[k].SwapCommit? && states[k].core.scope == scope)
    ensures scope in states[m].core.saved && states[m].core.saved[scope] == states[a].core.saved[scope]
  {
    if a < m {
      SavedKept(states, events, a, m - 1, scope);
      SavedAt(states[m - 1], events[m - 1], states[m], scope);
    }
  }

  lemma SavedAt(s: State, e: Event, t: State, scope: string)
    requires Step(s, e, t) && scope in s.core.saved && !(e.SwapCommit? && s.core.scope == scope)
    ensures scope in t.core.saved && t.core.saved[scope] == s.core.saved[scope]
  {
    if t.core.saved != s.core.saved {
      SavedOnlyByCommit(s, e, t);
    }
  }

  /**
    From a commit to a later layer start on the same network, in any run without another commit for
    that network in between: the helper then runs the built-in strategy, if the remembered one is not
    usable any more, or else the confirmed winner exactly when that is restartable. The winner is
    whatever the scan returned.
   */
  lemma RestartRunsWinner(states: seq<State>, events: seq<Event>, k: nat, m: nat, i: nat)
    requires Run(states, events) && k < m < |events| && events[k] == SwapCommit(i) && i in states[k].tasks && states[k].tasks[i].Verified?
    requires var scope := states[k].core.scope;
             && scope in states[k + 1].core.saved && states[k + 1].core.saved[scope] == ForCache(states[k].tasks[i].winner.strategy)
             && (forall j :: k < j < m ==> !(events[j].SwapCommit? && states[j].core.scope == scope))
             && StartsLayer(states[m], events[m], states[m + 1]) && states[m + 1].core.scope == scope
    ensures states[m + 1].core.desCfg.Some?
    ensures var winner, run := states[k].tasks[i].winner.strategy, states[m + 1].core.desCfg.value.strategy;
            SameRun(run, Wrapped(states[m + 1].core.safe)) || (SameRun(run, winner) <==> Restartable(winner))
  {
    SavedKept(states, events, k + 1, m, states[k].core.scope);
    RunQuiet(states, events, m);
    assert Step(states[m], events[m], states[m + 1]);
    LayerChooses(states[m], events[m], states[m + 1]);
    ChosenRuns(states[m + 1].core, states[m + 1].core.desCfg.value, states[k].tasks[i].winner.strategy);
  }

  lemma ChosenRuns(c: Core, cfg: Config, winner: Strategy)
    requires Chosen(c, cfg) && c.scope in c.saved && c.saved[c.scope] == ForCache(winner)
    ensures SameRun(cfg.strategy, Wrapped(c.safe)) || (SameRun(cfg.strategy, winner) <==> Restartable(winner))
  {
    CachedRestart(winner, ForCache(winner));
  }
}
