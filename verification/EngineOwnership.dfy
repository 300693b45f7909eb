/**
  Who owns the sessions the engine starts. For runs in which no two pieces of work of one session
  replace the same component at once, no started session is ever lost, the helper always runs its
  configured strategy and a strategy swap is all or nothing.
 */
module EngineOwnership {
  import opened Options
  import opened Chain
  import opened EngineCore
  import opened EngineRuns
  import opened EngineSafety

  /** Sessions only a task refers to. */
  function TaskOwned(task: Task): set<Handle> {
    match task
    case RepairStarted(_, _, _, next, _) => Held(next)
    case Verified(_, _, _, _, next, _) => Held(next)
    case Restored(_, _, _, next) => Held(next)
    case Discard(next) => Held(next)
    case _ => {}
  }

  /** Work that will assign an engine handle without comparing it first. */
  predicate Busy(task: Task) {
    || task.RepairOpen? || task.RepairClosed? || task.RepairStarted?
    || task.Verifying? || task.Verified? || task.Restoring? || task.Restored?
  }

  /** The component a piece of work replaces. */
  datatype Part = PartResolver | PartHelper | PartTunnel

  function WantPart(want: Want): Part {
    match want
    case WantResolver => PartResolver
    case WantHelper(_) => PartHelper
    case WantTunnel(_) => PartTunnel
  }

  function TaskPart(task: Task): Part
    requires Busy(task)
  {
    if task.RepairOpen? || task.RepairClosed? || task.RepairStarted? then WantPart(task.want) else PartHelper
  }

  predicate BusyNow(c: Core, task: Task) { Busy(task) && task.sess == c.sessGen }

  predicate BusyOn(c: Core, task: Task, part: Part) { BusyNow(c, task) && TaskPart(task) == part }

  /** What a busy task of the current session may rely on while it is the only one on its component. */
  predicate Tie(c: Core, task: Task) {
    match task
    case RepairOpen(_, want, prior) => Wants(c, want) && Component(c, want) == prior
    case RepairClosed(_, want, _, _) => Wants(c, want) && Held(Component(c, want)) !! c.open
    case RepairStarted(_, want, _, _, _) => Wants(c, want) && Held(Component(c, want)) !! c.open
    case Verifying(_, _, cfg, _) => c.des.None? && c.desCfg == Some(cfg)
    case Verified(_, _, cfg, _, _, _) => c.des.None? && c.desCfg == Some(cfg)
    case Restoring(_, _, cfg) => c.des.None? && c.desCfg == Some(cfg)
    case Restored(_, _, cfg, _) => c.des.None? && c.desCfg == Some(cfg)
    case _ => true
  }

  predicate TaskHolds(s: State, h: Handle) {
    exists i :: i in s.tasks && h in TaskOwned(s.tasks[i])
  }

  /** Every open session is referred to by the engine or by a task that will adopt or close it. */
  predicate Covered(s: State) {
    forall h :: h in s.core.open ==> h in Owned(s.core) || TaskHolds(s, h)
  }

  predicate Named(c: Core) {
    (forall h :: h in c.open ==> h.id < c.next) && (forall h :: h in Owned(c) ==> h.id < c.next)
  }

  /** The helper runs the strategy and address of the configuration in force. */
  predicate HelperAsConfigured(c: Core) {
    c.des.Some? ==> c.des.value.Helper? && c.desCfg == Some(c.des.value.cfg)
  }

  predicate OneBusy(s: State) {
    forall i, j :: i in s.tasks && j in s.tasks && i != j && BusyNow(s.core, s.tasks[i]) ==>
      !BusyOn(s.core, s.tasks[j], TaskPart(s.tasks[i]))
  }

  predicate Ties(s: State) {
    forall i :: i in s.tasks && BusyNow(s.core, s.tasks[i]) ==> Tie(s.core, s.tasks[i])
  }

  predicate Lone(s: State) {
    Covered(s) && Named(s.core) && HelperAsConfigured(s.core) && OneBusy(s) && Ties(s)
  }

  /** No work of the current session is about to replace this component. */
  predicate Idle(s: State, part: Part) {
    forall i :: i in s.tasks ==> !BusyOn(s.core, s.tasks[i], part)
  }

  /**
    Nothing replaces a component of a session while other work of that session is busy with the same
    one. Work on different components, and raising a layer, may overlap in any way.
   */
  predicate Alone(s: State, e: Event) {
    match e
    case RepairBegin(_, _, want) => Idle(s, WantPart(want))
    case SwapDecide(_, _, _) => s.core.switching || Idle(s, PartHelper)
    case HealRebind(_) => s.core.layer != Selective || Idle(s, PartHelper)
    case EscalateRebuild(_, _, _) => Idle(s, PartTunnel)
    case _ => true
  }

  ghost predicate AloneRun(states: seq<State>, events: seq<Event>) {
    Run(states, events) && forall i {:trigger events[i]} :: 0 <= i < |events| ==> Alone(states[i], events[i])
  }

  // ------------------------------------------------------------------- keeping it

  predicate OthersSame(s: State, t: State, i: int) {
    forall j :: j in t.tasks && j != i ==> j in s.tasks && t.tasks[j] == s.tasks[j]
  }

  predicate OthersKept(s: State, t: State, i: int) {
    forall j :: j in s.tasks && j != i ==> j in t.tasks && t.tasks[j] == s.tasks[j]
  }

  function OwnedAt(s: State, i: int): set<Handle> { if i in s.tasks then TaskOwned(s.tasks[i]) else {} }

  /** Only the engine and task i give up or take over sessions in a step of task i. */
  lemma CoverKept(s: State, t: State, i: int)
    requires Covered(s) && OthersKept(s, t, i)
    requires forall h :: h in t.core.open ==>
      h in Owned(t.core) || h in OwnedAt(t, i) || (h in s.core.open && h !in Owned(s.core) && h !in OwnedAt(s, i))
    ensures Covered(t)
  {
    forall h | h in t.core.open
      ensures h in Owned(t.core) || TaskHolds(t, h)
    {
      if h in OwnedAt(t, i) {
        assert TaskHolds(t, h);
      } else if h !in Owned(t.core) {
        assert TaskHolds(s, h);
        var j :| j in s.tasks && h in TaskOwned(s.tasks[j]);
        assert j in t.tasks && h in TaskOwned(t.tasks[j]);
      }
    }
  }

  /** In a new session no task is busy yet. */
  lemma NewSession(s: State, t: State)
    requires Inv(s) && s.core.sessGen < t.core.sessGen && (forall j :: j in t.tasks ==> j in s.tasks && t.tasks[j] == s.tasks[j])
    ensures OneBusy(t) && Ties(t)
  {
    forall j | j in t.tasks
      ensures !BusyNow(t.core, t.tasks[j])
    {
      assert TaskInv(s.core, s.tasks[j]);
    }
  }

  /** Nothing a task busy with this component relies on has changed. */
  predicate SameGround(c: Core, d: Core, part: Part) {
    && d.sessGen == c.sessGen && (forall h :: h in d.open && h.id < c.next ==> h in c.open)
    && match part
       case PartResolver => d.dns == c.dns && d.dnsCfg == c.dnsCfg
       case PartHelper => d.des == c.des && d.desCfg == c.desCfg
       case PartTunnel => d.tun == c.tun && d.tunCfg == c.tunCfg
  }

  predicate AllGround(c: Core, d: Core) {
    SameGround(c, d, PartResolver) && SameGround(c, d, PartHelper) && SameGround(c, d, PartTunnel)
  }

  lemma TieStays(c: Core, d: Core, task: Task)
    requires BusyNow(c, task) && SameGround(c, d, TaskPart(task)) && Named(c) && Tie(c, task)
    ensures BusyNow(d, task) && Tie(d, task)
  {
  }

  /** A step of task i keeps the ties of the others if it leaves their components alone. */
  lemma GroundKept(s: State, t: State, i: int)
    requires OneBusy(s) && Ties(s) && Named(s.core) && OthersSame(s, t, i) && t.core.sessGen == s.core.sessGen
    requires forall j :: j in s.tasks && j != i && BusyNow(s.core, s.tasks[j]) ==> SameGround(s.core, t.core, TaskPart(s.tasks[j]))
    requires i in t.tasks && BusyNow(t.core, t.tasks[i]) ==>
      Tie(t.core, t.tasks[i]) && forall j :: j in s.tasks && j != i ==> !BusyOn(s.core, s.tasks[j], TaskPart(t.tasks[i]))
    ensures OneBusy(t) && Ties(t)
  {
    forall j | j in t.tasks && j != i && BusyNow(t.core, t.tasks[j])
      ensures j in s.tasks && BusyNow(s.core, s.tasks[j]) && Tie(t.core, t.tasks[j])
    {
      TieStays(s.core, t.core, s.tasks[j]);
    }
  }

  lemma OnlyBusy(s: State, i: int)
    requires OneBusy(s) && i in s.tasks && BusyNow(s.core, s.tasks[i])
    ensures forall j :: j in s.tasks && j != i ==> !BusyOn(s.core, s.tasks[j], TaskPart(s.tasks[i]))
  {
  }

  // ----------------------------------------------------------------------- the steps

  lemma StoppedLone(s: State, t: State, i: int)
    requires Inv(s) && Lone(s) && OthersKept(s, t, i) && OthersSame(s, t, i) && OwnedAt(s, i) == {}
    requires i in t.tasks ==> !Busy(t.tasks[i])
    requires t.core == StopFn(s.core) || t.core == CrashFn(s.core)
    ensures Lone(t)
  {
    CoverKept(s, t, i);
    forall j | j in t.tasks && BusyNow(t.core, t.tasks[j])
      ensures t.core == s.core
    {
      assert TaskInv(s.core, s.tasks[j]);
    }
    if t.core == s.core {
      GroundKept(s, t, i);
    }
  }

  lemma StartedLone(s: State, d: Core, t: State, i: int)
    requires Inv(s) && Lone(s) && OthersKept(s, t, i) && OthersSame(s, t, i) && i !in t.tasks && OwnedAt(s, i) == {}
    requires Started(s.core, d) || StartFailed(s.core, d)
    requires t.core == d
    ensures Lone(t)
  {
    CoverKept(s, t, i);
    NewSession(s, t);
  }

  lemma RefreshLone(s: State, e: Event, t: State)
    requires Inv(s) && Lone(s) && PublicStep(s, e, t) && (e.Refresh? || e.Observe?)
    ensures Lone(t)
  {
    CoverKept(s, t, -1);
    GroundKept(s, t, -1);
  }

  lemma CallLone(b: State, e: Event, t: State)
    requires Inv(b) && Lone(b) && t.tasks == b.tasks
    requires match e
             case StartCall(okMode) => StartRel(b.core, okMode, t.core)
             case StopCall => t.core == StopFn(b.core)
             case RepairCall => t.core == StopFn(b.core).(storeOpen := false, scope := NO_NETWORK)
             case CrashCall => t.core == CrashFn(b.core)
             case _ => false
    ensures Lone(t)
  {
    if e.StartCall? {
      if e.okMode && b.core.state == Stopped {
        StartedLone(b, t.core, t, -1);
      } else {
        assert t == b;
      }
    } else if e.RepairCall? {
      StoppedLone(b, t.(core := StopFn(b.core)), -1);
      ClosedStore(t.(core := StopFn(b.core)), t);
    } else {
      StoppedLone(b, t, -1);
    }
  }

  lemma PublicLone(s: State, e: Event, t: State)
    requires Inv(s) && Lone(s) && PublicStep(s, e, t)
    ensures Lone(t)
  {
    if e.Refresh? || e.Observe? {
      RefreshLone(s, e, t);
    } else {
      BumpedLone(s);
      CallLone(s.(core := Bumped(s.core)), e, t);
    }
  }

  lemma BumpedLone(s: State)
    requires Inv(s) && Lone(s)
    ensures Inv(s.(core := Bumped(s.core))) && Lone(s.(core := Bumped(s.core)))
  {
    var b := s.(core := Bumped(s.core));
    CoverKept(s, b, -1);
    GroundKept(s, b, -1);
    forall j | j in b.tasks
      ensures TaskInv(b.core, b.tasks[j])
    {
      TaskStays(s.core, b.core, s.tasks[j]);
    }
  }

  lemma ClosedStore(s: State, t: State)
    requires Lone(s) && t == s.(core := s.core.(storeOpen := false, scope := NO_NETWORK))
    ensures Lone(t)
  {
    CoverKept(s, t, -1);
    GroundKept(s, t, -1);
  }

  /** A step that touches neither a handle nor a configuration, except through its own task. */
  lemma QuietLone(s: State, t: State, i: int)
    requires Lone(s) && OthersSame(s, t, i) && OthersKept(s, t, i)
    requires AllGround(s.core, t.core) && t.core.job == s.core.job && t.core.cap == s.core.cap && s.core.next <= t.core.next
    requires forall h :: h in t.core.open ==> h.id < t.core.next
    requires forall h :: h in t.core.open ==> h in OwnedAt(t, i) || (h in s.core.open && (h in OwnedAt(s, i) ==> h in Owned(s.core)))
    requires i in t.tasks && BusyNow(t.core, t.tasks[i]) ==>
      i in s.tasks && BusyNow(s.core, s.tasks[i]) && TaskPart(s.tasks[i]) == TaskPart(t.tasks[i]) && Tie(t.core, t.tasks[i])
    ensures Lone(t)
  {
    CoverKept(s, t, i);
    if i in t.tasks && BusyNow(t.core, t.tasks[i]) {
      OnlyBusy(s, i);
    }
    GroundKept(s, t, i);
  }

  /** A step that replaces components no other task is busy with. */
  lemma ReplaceLone(s: State, t: State, i: int)
    requires Lone(s) && OthersSame(s, t, i) && OthersKept(s, t, i) && t.core.sessGen == s.core.sessGen
    requires Named(t.core) && HelperAsConfigured(t.core)
    requires forall h :: h in t.core.open ==>
      h in Owned(t.core) || h in OwnedAt(t, i) || (h in s.core.open && h !in Owned(s.core) && h !in OwnedAt(s, i))
    requires forall j :: j in s.tasks && j != i && BusyNow(s.core, s.tasks[j]) ==> SameGround(s.core, t.core, TaskPart(s.tasks[j]))
    requires i in t.tasks && BusyNow(t.core, t.tasks[i]) ==>
      Tie(t.core, t.tasks[i]) && forall j :: j in s.tasks && j != i ==> !BusyOn(s.core, s.tasks[j], TaskPart(t.tasks[i]))
    ensures Lone(t)
  {
    CoverKept(s, t, i);
    GroundKept(s, t, i);
  }

  /** Work busy with another component does not notice that this one is replaced. */
  lemma OtherParts(s: State, t: State, i: int, part: Part)
    requires forall j :: j in s.tasks && j != i ==> !BusyOn(s.core, s.tasks[j], part)
    requires forall q :: q != part ==> SameGround(s.core, t.core, q)
    ensures forall j :: j in s.tasks && j != i && BusyNow(s.core, s.tasks[j]) ==> SameGround(s.core, t.core, TaskPart(s.tasks[j]))
  {
  }

  lemma RestartLone(s: State, i: nat, t: State)
    requires Inv(s) && Lone(s) && HealStep(s, HealRestart(i), t)
    ensures Lone(t)
  {
    if RestartGuard(s.core, s.tasks[i]) {
      StartedLone(s, t.core, t, i);
    } else {
      QuietLone(s, t, i);
    }
  }

  lemma RebindLone(s: State, i: nat, t: State)
    requires Inv(s) && Lone(s) && HealStep(s, HealRebind(i), t) && Alone(s, HealRebind(i))
    ensures Lone(t)
  {
    if s.core.layer != Selective {
      QuietLone(s, t, i);
    } else {
      OtherParts(s, t, i, PartHelper);
      ReplaceLone(s, t, i);
    }
  }

  lemma HealLone(s: State, e: Event, t: State)
    requires Inv(s) && Lone(s) && HealStep(s, e, t) && Alone(s, e)
    ensures Lone(t)
  {
    if e.HealRebind? {
      RebindLone(s, e.t, t);
    } else if e.HealStop? {
      StoppedLone(s, t, e.t);
    } else if e.HealRestart? {
      RestartLone(s, e.t, t);
    } else {
      QuietLone(s, t, e.t);
    }
  }

  lemma RebuildLone(s: State, i: nat, gw: Gateway, ok: bool, t: State)
    requires Inv(s) && Lone(s) && LayerStep(s, EscalateRebuild(i, gw, ok), t) && Idle(s, PartTunnel)
    ensures Lone(t)
  {
    OtherParts(s, t, i, PartTunnel);
    ReplaceLone(s, t, i);
  }

  /** Helper and gateway work belongs to the selective layer, so nothing is busy with them when it is raised. */
  lemma RaiseLone(s: State, i: nat, t: State)
    requires Inv(s) && Lone(s) && LayerStep(s, LayerApply(i), t)
    ensures Lone(t)
  {
    if t.core == s.core {
      QuietLone(s, t, i);
    } else {
      forall j | j in s.tasks && j != i && BusyNow(s.core, s.tasks[j])
        ensures SameGround(s.core, t.core, TaskPart(s.tasks[j]))
      {
        assert TaskInv(s.core, s.tasks[j]);
      }
      ReplaceLone(s, t, i);
    }
  }

  lemma LayerLone(s: State, e: Event, t: State)
    requires Inv(s) && Lone(s) && LayerStep(s, e, t) && Alone(s, e)
    ensures Lone(t)
  {
    if e.EscalateRebuild? {
      RebuildLone(s, e.t, e.gw, e.ok, t);
    } else if e.LayerApply? {
      RaiseLone(s, e.t, t);
    } else {
      QuietLone(s, t, e.t);
    }
  }

  lemma StaleLone(s: State, i: nat, t: State)
    requires Lone(s) && RepairStep(s, RepairFinish(i), t) && !Current(s.core, s.tasks[i].sess)
    ensures Lone(t)
  {
    QuietLone(s, t, i);
  }

  lemma AdoptedCover(c: Core, want: Want, h: Handle)
    requires Named(c) && HelperAsConfigured(c) && Kinds(c) && MadeFor(want, Some(h), c.next)
    requires Wants(c, want) && Held(Component(c, want)) !! c.open
    ensures var d := Adopted(c.(switching := false), want, h);
            && Named(d) && HelperAsConfigured(d) && h in Owned(d)
            && forall x :: x in c.open && x in Owned(c) ==> x in Owned(d)
  {
    match want
    case WantResolver =>
    case WantHelper(_) =>
    case WantTunnel(_) =>
  }

  lemma AdoptedGround(c: Core, want: Want, h: Handle)
    ensures forall q :: q != WantPart(want) ==> SameGround(c, Adopted(c.(switching := false), want, h), q)
  {
    match want
    case WantResolver =>
    case WantHelper(_) =>
    case WantTunnel(_) =>
  }

  /** The handle a repair replaces was closed before, so replacing it loses nothing. */
  lemma AdoptedLone(s: State, i: nat, want: Want, h: Handle, t: State)
    requires Lone(s) && i in s.tasks && s.tasks[i].RepairStarted? && s.tasks[i].next == Some(h) && s.tasks[i].want == want
    requires BusyNow(s.core, s.tasks[i]) && MadeFor(want, Some(h), s.core.next) && Kinds(s.core)
    requires t == State(Adopted(s.core.(switching := false), want, h), s.tasks - {i})
    ensures Lone(t)
  {
    OnlyBusy(s, i);
    assert Tie(s.core, s.tasks[i]);
    AdoptedCover(s.core, want, h);
    AdoptedGround(s.core, want, h);
    OtherParts(s, t, i, WantPart(want));
    ReplaceLone(s, t, i);
  }

  lemma AdoptLone(s: State, i: nat, t: State)
    requires Inv(s) && Lone(s) && RepairStep(s, RepairFinish(i), t)
    ensures Lone(t)
  {
    if !Current(s.core, s.tasks[i].sess) {
      StaleLone(s, i, t);
    } else if s.tasks[i].next.None? {
      QuietLone(s, t, i);
    } else {
      assert TaskInv(s.core, s.tasks[i]);
      AdoptedLone(s, i, s.tasks[i].want, s.tasks[i].next.value, t);
    }
  }

  /** A session started outside the lock belongs to the work that started it. */
  lemma OpenedLone(s: State, t: State, i: nat, want: Want, next: Option<Handle>)
    requires Lone(s) && i in s.tasks && i in t.tasks && OthersSame(s, t, i) && OthersKept(s, t, i)
    requires MaybeOpened(s.core, want, next, t.core) && TaskOwned(s.tasks[i]) == {} && TaskOwned(t.tasks[i]) == Held(next)
    requires BusyNow(t.core, t.tasks[i]) ==>
      BusyNow(s.core, s.tasks[i]) && TaskPart(s.tasks[i]) == TaskPart(t.tasks[i]) && Tie(t.core, t.tasks[i])
    ensures Lone(t)
  {
    QuietLone(s, t, i);
  }

  lemma ClosedLone(s: State, t: State, i: nat, o: Option<Handle>)
    requires Lone(s) && i in s.tasks && OthersSame(s, t, i) && OthersKept(s, t, i) && t.core == Closed(s.core, o)
    requires TaskOwned(s.tasks[i]) <= Held(o)
    requires i in t.tasks && BusyNow(t.core, t.tasks[i]) ==>
      BusyNow(s.core, s.tasks[i]) && TaskPart(s.tasks[i]) == TaskPart(t.tasks[i]) && Tie(t.core, t.tasks[i])
    ensures Lone(t)
  {
    QuietLone(s, t, i);
  }

  lemma RepairBeginLone(s: State, i: nat, sess: nat, want: Want, t: State)
    requires Lone(s) && RepairStep(s, RepairBegin(i, sess, want), t) && Alone(s, RepairBegin(i, sess, want))
    ensures Lone(t)
  {
    ReplaceLone(s, t, i);
  }

  lemma RepairCloseLone(s: State, i: nat, failed: bool, t: State)
    requires Lone(s) && RepairStep(s, RepairClose(i, failed), t)
    ensures Lone(t)
  {
    assert BusyNow(s.core, s.tasks[i]) ==> Tie(s.core, s.tasks[i]);
    ClosedLone(s, t, i, s.tasks[i].prior);
  }

  lemma RepairUndoLone(s: State, i: nat, t: State)
    requires Lone(s) && RepairStep(s, RepairUndo(i), t)
    ensures Lone(t)
  {
    assert BusyNow(s.core, s.tasks[i]) ==> Tie(s.core, s.tasks[i]);
    ClosedLone(s, t, i, s.tasks[i].next);
  }

  lemma RepairStartLone(s: State, i: nat, t: State)
    requires Lone(s) && RepairStep(s, RepairStart(i), t)
    ensures Lone(t)
  {
    assert BusyNow(s.core, s.tasks[i]) ==> Tie(s.core, s.tasks[i]);
    OpenedLone(s, t, i, s.tasks[i].want, t.tasks[i].next);
  }

  lemma RepairWork(s: State, e: Event, t: State)
    requires Lone(s) && RepairStep(s, e, t) && (e.RepairClose? || e.RepairStart? || e.RepairUndo?)
    ensures Lone(t)
  {
    if e.RepairClose? {
      RepairCloseLone(s, e.t, e.failed, t);
    } else if e.RepairStart? {
      RepairStartLone(s, e.t, t);
    } else {
      RepairUndoLone(s, e.t, t);
    }
  }

  lemma RepairLone(s: State, e: Event, t: State)
    requires Inv(s) && Lone(s) && RepairStep(s, e, t) && Alone(s, e)
    ensures Lone(t)
  {
    if e.RepairBegin? {
      RepairBeginLone(s, e.t, e.sess, e.want, t);
    } else if e.RepairFinish? {
      AdoptLone(s, e.t, t);
    } else {
      RepairWork(s, e, t);
    }
  }

  lemma CommitLone(s: State, i: nat, t: State)
    requires Inv(s) && Lone(s) && i in s.tasks && s.tasks[i].Verified? && CommitStep(s, i, t)
    ensures Lone(t)
  {
    assert TaskInv(s.core, s.tasks[i]);
    if Current(s.core, s.tasks[i].sess) {
      OnlyBusy(s, i);
      OtherParts(s, t, i, PartHelper);
      ReplaceLone(s, t, i);
    } else {
      QuietLone(s, t, i);
    }
  }

  lemma EndLone(s: State, i: nat, t: State)
    requires Inv(s) && Lone(s) && i in s.tasks && s.tasks[i].Restored? && EndStep(s, i, t)
    ensures Lone(t)
  {
    assert TaskInv(s.core, s.tasks[i]);
    if Current(s.core, s.tasks[i].sess) {
      OnlyBusy(s, i);
      OtherParts(s, t, i, PartHelper);
      ReplaceLone(s, t, i);
    } else {
      QuietLone(s, t, i);
    }
  }

  lemma DecideLone(s: State, i: nat, result: Option<Strategy>, closeFails: bool, t: State)
    requires Inv(s) && Lone(s) && i in s.tasks && s.tasks[i].Scanning? && DecideStep(s, i, result, closeFails, t)
    requires s.core.switching || Idle(s, PartHelper)
    requires s.core.des == Some(s.tasks[i].original) && Current(s.core, s.tasks[i].sess) ==> s.core.desCfg == Some(s.tasks[i].cfg)
    ensures Lone(t)
  {
    if t.core.open == s.core.open && t.core.des == s.core.des {
      QuietLone(s, t, i);
    } else {
      OtherParts(s, t, i, PartHelper);
      ReplaceLone(s, t, i);
    }
  }

  /** The scan copied the configuration of the helper it will replace. */
  predicate ScanCopied(s: State) {
    forall i :: i in s.tasks && s.tasks[i].Scanning? ==> s.tasks[i].original.Helper? && s.tasks[i].original.cfg == s.tasks[i].cfg
  }

  lemma SwapLone(s: State, e: Event, t: State)
    requires Inv(s) && Lone(s) && ScanCopied(s) && SwapStep(s, e, t) && Alone(s, e)
    ensures Lone(t)
  {
    if e.SwapDecide? {
      DecideLone(s, e.t, e.result, e.closeFails, t);
    } else if e.SwapCommit? {
      CommitLone(s, e.t, t);
    } else if e.SwapEnd? {
      EndLone(s, e.t, t);
    } else {
      SwapWorkLone(s, e, t);
    }
  }

  lemma SwapWorkLone(s: State, e: Event, t: State)
    requires Lone(s) && SwapStep(s, e, t) && (e.SwapBegin? || e.SwapStart? || e.SwapRestart?)
    ensures Lone(t)
  {
    if e.SwapBegin? {
      QuietLone(s, t, e.t);
    } else {
      assert BusyNow(s.core, s.tasks[e.t]) ==> Tie(s.core, s.tasks[e.t]);
      OpenedLone(s, t, e.t, WantHelper(if e.SwapStart? then s.tasks[e.t].winner else s.tasks[e.t].cfg), t.tasks[e.t].next);
    }
  }

  lemma OtherScans(s: State, e: Event, t: State)
    requires ScanCopied(s) && (PublicStep(s, e, t) || HealStep(s, e, t) || RepairStep(s, e, t) || LayerStep(s, e, t))
    ensures ScanCopied(t)
  {
  }

  lemma SwapScans(s: State, e: Event, t: State)
    requires HelperAsConfigured(s.core) && ScanCopied(s) && SwapStep(s, e, t)
    ensures ScanCopied(t)
  {
  }

  lemma ScanStep(s: State, e: Event, t: State)
    requires HelperAsConfigured(s.core) && ScanCopied(s) && Step(s, e, t)
    ensures ScanCopied(t)
  {
    if SwapStep(s, e, t) {
      SwapScans(s, e, t);
    } else {
      OtherScans(s, e, t);
    }
  }

  lemma LoneStep(s: State, e: Event, t: State)
    requires Inv(s) && Lone(s) && ScanCopied(s) && Step(s, e, t) && Alone(s, e)
    ensures Lone(t) && ScanCopied(t)
  {
    ScanStep(s, e, t);
    if PublicStep(s, e, t) {
      PublicLone(s, e, t);
    } else if HealStep(s, e, t) {
      HealLone(s, e, t);
    } else if RepairStep(s, e, t) {
      RepairLone(s, e, t);
    } else if SwapStep(s, e, t) {
      SwapLone(s, e, t);
    } else {
      LayerLone(s, e, t);
    }
  }

  // ------------------------------------------------------------------------ no leaks

  lemma {:induction false} RunLone(states: seq<State>, events: seq<Event>, i: nat)
    requires AloneRun(states, events) && i < |states|
    ensures Lone(states[i]) && ScanCopied(states[i])
  {
    if i > 0 {
      RunLone(states, events, i - 1);
      RunQuiet(states, events, i - 1);
      LoneStep(states[i - 1], events[i - 1], states[i]);
    }
  }

  /** Nothing is lost: with protection off and no session in the hands of a task, every session is closed. */
  lemma NothingLeftOpen(states: seq<State>, events: seq<Event>, j: nat)
    requires AloneRun(states, events) && j < |states| && !states[j].core.protection
    requires forall i :: i in states[j].tasks ==> TaskOwned(states[j].tasks[i]) == {}
    ensures states[j].core.open == {}
  {
    RunLone(states, events, j);
    RunQuiet(states, events, j);
    assert Owned(states[j].core) == {};
    assert forall h :: !TaskHolds(states[j], h);
  }
}
