/**
  Runs of the protection engine. Background work drops the lock, does slow work and takes the lock
  again; every region under the lock and every Start or Close outside it is one step, and public
  calls, self-heals, component repairs, strategy swaps and escalations interleave in any way.
 */
module EngineRuns {
  import opened Options
  import opened Chain
  import opened EngineCore

  /** What a component repair restarts, with the configuration it copied. */
  datatype Want = WantResolver | WantHelper(cfg: Config) | WantTunnel(gw: Gateway)

  /** What the checks after a strategy scan observed. */
  datatype Verdict = Verdict(up: bool, target: bool, controls: seq<bool>, gateway: bool)

  /** Background work between two regions under the lock, with what it remembers. */
  datatype Task =
    | Heal(gen: nat, sess: nat)
    | HealStopped(gen: nat, stopped: nat)
    | RepairOpen(sess: nat, want: Want, prior: Option<Handle>)
    | RepairClosed(sess: nat, want: Want, prior: Option<Handle>, failed: bool)
    | RepairStarted(sess: nat, want: Want, prior: Option<Handle>, next: Option<Handle>, failed: bool)
    | Scanning(sess: nat, original: Handle, dataplane: Handle, cfg: Config, token: nat)
    | Verifying(sess: nat, dataplane: Handle, cfg: Config, winner: Config)
    | Verified(sess: nat, dataplane: Handle, cfg: Config, winner: Config, next: Option<Handle>, verdict: Verdict)
    | Restoring(sess: nat, dataplane: Handle, cfg: Config)
    | Restored(sess: nat, dataplane: Handle, cfg: Config, next: Option<Handle>)
    | Escalating(sess: nat, dataplane: Handle)
    | Measuring(sess: nat)
    | Discard(next: Option<Handle>)

  datatype State = State(core: Core, tasks: map<nat, Task>)

  datatype Event =
    | StartCall(okMode: bool)
    | StopCall
    | RepairCall
    | CrashCall
    | Refresh
    | Observe(scope: string)
    | HealBegin(t: nat)
    | HealDrop(t: nat)
    | HealRebind(t: nat)
    | HealStop(t: nat)
    | HealRestart(t: nat)
    | RepairBegin(t: nat, sess: nat, want: Want)
    | RepairClose(t: nat, failed: bool)
    | RepairStart(t: nat)
    | RepairUndo(t: nat)
    | RepairFinish(t: nat)
    | SwapBegin(t: nat, sess: nat)
    | SwapDecide(t: nat, result: Option<Strategy>, closeFails: bool)
    | SwapStart(t: nat)
    | SwapCommit(t: nat)
    | SwapRestart(t: nat)
    | SwapEnd(t: nat)
    | EscalateBegin(t: nat, sess: nat)
    | EscalateRebuild(t: nat, gw: Gateway, ok: bool)
    | LayerBegin(t: nat, sess: nat)
    | LayerApply(t: nat)
    | DiscardClose(t: nat)

  /** The scope of a policy that has observed no network yet. */
  const NO_NETWORK: string := ""

  // ------------------------------------------------------------------------ helpers

  function Component(c: Core, want: Want): Option<Handle> {
    match want
    case WantResolver => c.dns
    case WantHelper(_) => c.des
    case WantTunnel(_) => c.tun
  }

  /** The engine still has the configuration the repair copied. */
  predicate Wants(c: Core, want: Want) {
    match want
    case WantResolver => c.dnsCfg
    case WantHelper(cfg) => c.desCfg == Some(cfg)
    case WantTunnel(gw) => c.tunCfg == Some(gw)
  }

  function Make(want: Want, id: nat): Handle {
    match want
    case WantResolver => Resolver(id)
    case WantHelper(cfg) => Helper(id, cfg)
    case WantTunnel(gw) => Tunnel(id, gw)
  }

  function Adopted(c: Core, want: Want, h: Handle): Core {
    match want
    case WantResolver => c.(dns := Some(h))
    case WantHelper(_) => c.(des := Some(h))
    case WantTunnel(_) => c.(tun := Some(h))
  }

  function Opened(c: Core, h: Handle): Core { c.(open := c.open + {h}, next := c.next + 1) }

  function Closed(c: Core, o: Option<Handle>): Core { c.(open := c.open - Held(o)) }

  function Passes(controls: seq<bool>): nat {
    if controls == [] then 0
    else Passes(controls[..|controls| - 1]) + if controls[|controls| - 1] then 1 else 0
  }

  /** helperControlQuorum: at least two control hosts, and at least two of them opened. */
  predicate ControlQuorum(controls: seq<bool>) { |controls| >= 2 && Passes(controls) >= 2 }

  /** The real helper came up, opened the target and the controls, and so did the gateway. */
  predicate Passed(v: Verdict) { v.up && v.target && ControlQuorum(v.controls) && v.gateway }

  /** What the strategy store holds after a Put, which refuses an empty strategy. */
  function Remembered(c: Core, s: Strategy): map<string, Strategy> {
    if c.storeOpen && ForCache(s).id != "" && ForCache(s).args != [] then c.saved[c.scope := ForCache(s)] else c.saved
  }

  /** A session started outside the lock, or nothing. */
  predicate MaybeOpened(c: Core, want: Want, next: Option<Handle>, d: Core) {
    match next
    case None => d == c
    case Some(h) => h == Make(want, c.next) && d == Opened(c, h)
  }

  // -------------------------------------------------------------------------- steps

  predicate HealGuard(c: Core, task: Task) {
    task.Heal? && task.gen == c.lifeGen && Current(c, task.sess)
  }

  predicate RestartGuard(c: Core, task: Task) {
    task.HealStopped? && task.gen == c.lifeGen && task.stopped == c.sessGen && c.state == Stopped
  }

  predicate PublicStep(s: State, e: Event, t: State) {
    && t.tasks == s.tasks
    && match e
       case StartCall(okMode) => StartRel(Bumped(s.core), okMode, t.core)
       case StopCall => t.core == StopFn(Bumped(s.core))
       case RepairCall => t.core == StopFn(Bumped(s.core)).(storeOpen := false, scope := NO_NETWORK)
       case CrashCall => t.core == CrashFn(Bumped(s.core))
       case Refresh => StatusOnly(s.core, t.core)
       case Observe(scope) => t.core == s.core.(scope := scope)
       case _ => false
  }

  predicate HealStep(s: State, e: Event, t: State) {
    match e
    case HealBegin(i) => i !in s.tasks && t == s.(tasks := s.tasks[i := Heal(s.core.lifeGen, s.core.sessGen)])
    case HealDrop(i) => i in s.tasks && s.tasks[i].Heal? && t == s.(tasks := s.tasks - {i})
    case HealRebind(i) => i in s.tasks && HealGuard(s.core, s.tasks[i]) && Rebound(s.core, t.core) && t.tasks == s.tasks - {i}
    case HealStop(i) =>
      && i in s.tasks && HealGuard(s.core, s.tasks[i]) && t.core == StopFn(s.core)
      && t.tasks == s.tasks[i := HealStopped(s.tasks[i].gen, t.core.sessGen)]
    case HealRestart(i) =>
      && i in s.tasks && s.tasks[i].HealStopped? && t.tasks == s.tasks - {i}
      && (if RestartGuard(s.core, s.tasks[i]) then StartRel(s.core, true, t.core) else t.core == s.core)
    case _ => false
  }

  predicate RepairStep(s: State, e: Event, t: State) {
    var c := s.core;
    match e
    case RepairBegin(i, sess, want) =>
      && i !in s.tasks && Current(c, sess) && !c.switching && Wants(c, want)
      && t == State(c.(switching := true), s.tasks[i := RepairOpen(sess, want, Component(c, want))])
    case RepairClose(i, failed) =>
      && i in s.tasks && s.tasks[i].RepairOpen?
      && t == State(Closed(c, s.tasks[i].prior),
                    s.tasks[i := RepairClosed(s.tasks[i].sess, s.tasks[i].want, s.tasks[i].prior, s.tasks[i].prior.Some? && failed)])
    case RepairStart(i) =>
      && i in s.tasks && s.tasks[i].RepairClosed? && i in t.tasks && t.tasks[i].RepairStarted?
      && var task, after := s.tasks[i], t.tasks[i];
         && after.sess == task.sess && after.want == task.want && after.prior == task.prior && t.tasks == s.tasks[i := after]
         && (if task.failed then after.next.None? && after.failed && t.core == c
             else MaybeOpened(c, task.want, after.next, t.core))
    case RepairUndo(i) =>
      && i in s.tasks && s.tasks[i].RepairStarted? && s.tasks[i].failed
      && t == State(Closed(c, s.tasks[i].next), s.tasks[i := RepairStarted(s.tasks[i].sess, s.tasks[i].want, s.tasks[i].prior, None, true)])
    case RepairFinish(i) =>
      && i in s.tasks && s.tasks[i].RepairStarted? && (s.tasks[i].failed ==> s.tasks[i].next.None?)
      && (if !Current(c, s.tasks[i].sess) then t == s.(tasks := s.tasks[i := Discard(s.tasks[i].next)])
          else
            && t.tasks == s.tasks - {i}
            && t.core == if s.tasks[i].next.None? then c.(switching := false)
                         else Adopted(c.(switching := false), s.tasks[i].want, s.tasks[i].next.value))
    case _ => false
  }

  /** recoverDesyncStrategySession after the scan: is the stack it scanned for still the one in place? */
  predicate StackUnchanged(c: Core, task: Task)
    requires task.Scanning?
  {
    c.des == Some(task.original) && c.tun == Some(task.dataplane) && !c.switching && c.layer == Selective
  }

  predicate DecideStep(s: State, i: nat, result: Option<Strategy>, closeFails: bool, t: State)
    requires i in s.tasks && s.tasks[i].Scanning?
  {
    var c, task := s.core, s.tasks[i];
    if !Current(c, task.sess) || c.scan != Some(task.token) then t == s.(tasks := s.tasks - {i})
    else if !StackUnchanged(c, task) || result.None? then t == State(c.(scan := None), s.tasks - {i})
    else if closeFails then t == State(Closed(c, Some(task.original)), s.tasks - {i})
    else t == State(Closed(c, Some(task.original)).(des := None, switching := true),
                    s.tasks[i := Verifying(task.sess, task.dataplane, task.cfg, task.cfg.(strategy := result.value))])
  }

  predicate CommitStep(s: State, i: nat, t: State)
    requires i in s.tasks && s.tasks[i].Verified?
  {
    var c, task := s.core, s.tasks[i];
    if !Current(c, task.sess) || c.tun != Some(task.dataplane) then
      t == State(c.(switching := false), s.tasks[i := Discard(task.next)])
    else if Passed(task.verdict) then
      t == State(c.(des := task.next, desCfg := Some(task.winner), saved := Remembered(c, task.winner.strategy),
                    switching := false, scan := None), s.tasks - {i})
    else t == State(Closed(c, task.next), s.tasks[i := Restoring(task.sess, task.dataplane, task.cfg)])
  }

  predicate EndStep(s: State, i: nat, t: State)
    requires i in s.tasks && s.tasks[i].Restored?
  {
    var c, task := s.core, s.tasks[i];
    if !Current(c, task.sess) || c.tun != Some(task.dataplane) then
      t == State(c.(switching := false), s.tasks[i := Discard(task.next)])
    else t == State(c.(des := task.next, switching := false, scan := None), s.tasks - {i})
  }

  predicate SwapStep(s: State, e: Event, t: State) {
    var c := s.core;
    match e
    case SwapBegin(i, sess) =>
      && i !in s.tasks && Current(c, sess) && !c.switching && c.layer == Selective && c.scan.None?
      && c.desCfg.Some? && c.des.Some? && c.tun.Some?
      && t == State(c.(scan := Some(c.next), next := c.next + 1),
                    s.tasks[i := Scanning(sess, c.des.value, c.tun.value, c.desCfg.value, c.next)])
    case SwapDecide(i, result, closeFails) => i in s.tasks && s.tasks[i].Scanning? && DecideStep(s, i, result, closeFails, t)
    case SwapStart(i) =>
      && i in s.tasks && s.tasks[i].Verifying? && i in t.tasks && t.tasks[i].Verified?
      && var task, after := s.tasks[i], t.tasks[i];
         && after == Verified(task.sess, task.dataplane, task.cfg, task.winner, after.next, after.verdict)
         && (after.verdict.up ==> after.next.Some?)
         && t.tasks == s.tasks[i := after] && MaybeOpened(c, WantHelper(task.winner), after.next, t.core)
    case SwapCommit(i) => i in s.tasks && s.tasks[i].Verified? && CommitStep(s, i, t)
    case SwapRestart(i) =>
      && i in s.tasks && s.tasks[i].Restoring? && i in t.tasks && t.tasks[i].Restored?
      && var task, after := s.tasks[i], t.tasks[i];
         && after == Restored(task.sess, task.dataplane, task.cfg, after.next)
         && t.tasks == s.tasks[i := after] && MaybeOpened(c, WantHelper(task.cfg), after.next, t.core)
    case SwapEnd(i) => i in s.tasks && s.tasks[i].Restored? && EndStep(s, i, t)
    case _ => false
  }

  predicate LayerStep(s: State, e: Event, t: State) {
    var c := s.core;
    match e
    case EscalateBegin(i, sess) =>
      && i !in s.tasks && Current(c, sess) && c.tun.Some? && c.layer == Selective
      && t == s.(tasks := s.tasks[i := Escalating(sess, c.tun.value)])
    case EscalateRebuild(i, gw, ok) =>
      && i in s.tasks && s.tasks[i].Escalating? && t.tasks == s.tasks - {i}
      && (if Current(c, s.tasks[i].sess) && c.tun == Some(s.tasks[i].dataplane) then Rebuilt(c, gw, ok, t.core) else t.core == c)
    case LayerBegin(i, sess) =>
      && i !in s.tasks && Current(c, sess) && !c.switching && c.layer != Selective
      && t == s.(tasks := s.tasks[i := Measuring(sess)])
    case LayerApply(i) =>
      && i in s.tasks && s.tasks[i].Measuring? && t.tasks == s.tasks - {i}
      && (if Current(c, s.tasks[i].sess) && c.layer != Selective then Layered(c, t.core) else t.core == c)
    case DiscardClose(i) =>
      i in s.tasks && s.tasks[i].Discard? && t == State(Closed(c, s.tasks[i].next), s.tasks - {i})
    case _ => false
  }

  predicate Step(s: State, e: Event, t: State) {
    PublicStep(s, e, t) || HealStep(s, e, t) || RepairStep(s, e, t) || SwapStep(s, e, t) || LayerStep(s, e, t)
  }

  function Initial(safe: Strategy, saved: map<string, Strategy>): State {
    State(Core(0, 0, Stopped, false, None, None, None, None, None, NoLayer, false, None, false, None, None, safe, NO_NETWORK, false, saved, {}, 0),
          map[])
  }

  ghost predicate Run(states: seq<State>, events: seq<Event>) {
    && |states| == |events| + 1
    && (exists safe, saved :: states[0] == Initial(safe, saved))
    && forall i {:trigger events[i]} :: 0 <= i < |events| ==> Step(states[i], events[i], states[i + 1])
  }

  // ---------------------------------------------------------- what every step keeps

  /** Generations never go back; within a session protection stays and the selective layer is absorbing. */
  predicate Flows(c: Core, d: Core) {
    && c.lifeGen <= d.lifeGen && c.sessGen <= d.sessGen && c.next <= d.next
    && (c.sessGen == d.sessGen ==> d.protection == c.protection && (c.layer == Selective ==> d.layer == Selective))
  }

  /** The helper and gateway work of a session starts only in its selective layer. */
  predicate NeedsTransport(task: Task) {
    || task.Scanning? || task.Verifying? || task.Verified? || task.Restoring? || task.Restored?
    || ((task.RepairOpen? || task.RepairClosed? || task.RepairStarted?) && !task.want.WantResolver?)
  }

  predicate MadeFor(want: Want, o: Option<Handle>, next: nat) {
    o.Some? ==> o.value == Make(want, o.value.id) && o.value.id < next
  }

  predicate TaskInv(c: Core, task: Task) {
    match task
    case Heal(gen, sess) => gen <= c.lifeGen && sess <= c.sessGen
    case HealStopped(gen, stopped) => gen <= c.lifeGen && stopped <= c.sessGen
    case Discard(next) => next.Some? ==> next.value.id < c.next
    case Escalating(sess, _) => sess <= c.sessGen
    case Measuring(sess) => sess <= c.sessGen
    case RepairOpen(sess, want, _) => sess <= c.sessGen && OnLayer(c, task)
    case RepairClosed(sess, want, _, _) => sess <= c.sessGen && OnLayer(c, task)
    case RepairStarted(sess, want, _, next, _) => sess <= c.sessGen && OnLayer(c, task) && MadeFor(want, next, c.next)
    case Scanning(sess, original, dataplane, cfg, _) => sess <= c.sessGen && OnLayer(c, task)
    case Verifying(sess, _, _, _) => sess <= c.sessGen && OnLayer(c, task)
    case Verified(sess, _, _, winner, next, _) => sess <= c.sessGen && OnLayer(c, task) && MadeFor(WantHelper(winner), next, c.next)
    case Restoring(sess, _, _) => sess <= c.sessGen && OnLayer(c, task)
    case Restored(sess, _, cfg, next) => sess <= c.sessGen && OnLayer(c, task) && MadeFor(WantHelper(cfg), next, c.next)
  }

  predicate OnLayer(c: Core, task: Task)
    requires !task.HealStopped? && !task.Discard?
  {
    task.sess == c.sessGen ==> c.protection && (NeedsTransport(task) ==> c.layer == Selective)
  }

  predicate Inv(s: State) {
    Quiet(s.core) && forall i :: i in s.tasks ==> TaskInv(s.core, s.tasks[i])
  }

  lemma TaskStays(c: Core, d: Core, task: Task)
    requires TaskInv(c, task) && Flows(c, d)
    ensures TaskInv(d, task)
  {
  }

  /** A step that changes at most task i keeps every task's invariant if it does so for i. */
  lemma TasksKept(s: State, t: State, i: nat)
    requires Inv(s) && Flows(s.core, t.core)
    requires forall j :: j in t.tasks && j != i ==> j in s.tasks && t.tasks[j] == s.tasks[j]
    requires i in t.tasks ==> TaskInv(t.core, t.tasks[i])
    ensures forall j :: j in t.tasks ==> TaskInv(t.core, t.tasks[j])
  {
    forall j | j in t.tasks
      ensures TaskInv(t.core, t.tasks[j])
    {
      if j != i {
        TaskStays(s.core, t.core, s.tasks[j]);
      }
    }
  }

  lemma StartKeeps(c: Core, okMode: bool, d: Core)
    requires Quiet(c) && StartRel(c, okMode, d)
    ensures Quiet(d) && Flows(c, d)
  {
  }

  lemma StopKeeps(c: Core)
    requires Quiet(c)
    ensures Quiet(StopFn(c)) && Flows(c, StopFn(c)) && !StopFn(c).protection
    ensures Quiet(CrashFn(c)) && Flows(c, CrashFn(c)) && !CrashFn(c).protection
  {
  }

  lemma PublicKeeps(s: State, e: Event, t: State)
    requires Inv(s) && PublicStep(s, e, t)
    ensures Inv(t) && Flows(s.core, t.core)
  {
    var c := Bumped(s.core);
    assert Quiet(c);
    match e {
      case StartCall(okMode) => StartKeeps(c, okMode, t.core);
      case Refresh =>
      case Observe(_) =>
      case _ => StopKeeps(c);
    }
    forall j | j in t.tasks
      ensures TaskInv(t.core, t.tasks[j])
    {
      TaskStays(s.core, t.core, s.tasks[j]);
    }
  }

  lemma HealKeeps(s: State, e: Event, t: State)
    requires Inv(s) && HealStep(s, e, t)
    ensures Inv(t) && Flows(s.core, t.core)
  {
    match e
    case HealBegin(i) => TasksKept(s, t, i);
    case HealDrop(i) => TasksKept(s, t, i);
    case HealRebind(i) => TasksKept(s, t, i);
    case HealStop(i) =>
      StopKeeps(s.core);
      TasksKept(s, t, i);
    case HealRestart(i) =>
      if RestartGuard(s.core, s.tasks[i]) {
        StartKeeps(s.core, true, t.core);
      }
      TasksKept(s, t, i);
  }

  lemma AdoptQuiet(c: Core, want: Want, h: Handle)
    requires Quiet(c) && c.protection && h == Make(want, h.id) && (!want.WantResolver? ==> c.layer == Selective)
    ensures Quiet(Adopted(c.(switching := false), want, h)) && Flows(c, Adopted(c.(switching := false), want, h))
  {
    match want
    case WantResolver =>
    case WantHelper(_) =>
    case WantTunnel(_) =>
  }

  lemma FinishCore(s: State, i: nat, t: State)
    requires Inv(s) && RepairStep(s, RepairFinish(i), t)
    ensures Quiet(t.core) && Flows(s.core, t.core)
  {
    assert TaskInv(s.core, s.tasks[i]);
    if Current(s.core, s.tasks[i].sess) && s.tasks[i].next.Some? {
      AdoptQuiet(s.core, s.tasks[i].want, s.tasks[i].next.value);
    }
  }

  lemma RepairCore(s: State, e: Event, t: State)
    requires Inv(s) && RepairStep(s, e, t)
    ensures Quiet(t.core) && Flows(s.core, t.core)
  {
    if e.RepairFinish? {
      FinishCore(s, e.t, t);
    }
  }

  lemma RepairTask(s: State, e: Event, t: State)
    requires Quiet(s.core) && RepairStep(s, e, t) && (e.t in s.tasks ==> TaskInv(s.core, s.tasks[e.t]))
    ensures e.t in t.tasks ==> TaskInv(t.core, t.tasks[e.t])
    ensures forall j :: j in t.tasks && j != e.t ==> j in s.tasks && t.tasks[j] == s.tasks[j]
  {
  }

  lemma RepairKeeps(s: State, e: Event, t: State)
    requires Inv(s) && RepairStep(s, e, t)
    ensures Inv(t) && Flows(s.core, t.core)
  {
    RepairCore(s, e, t);
    RepairTask(s, e, t);
    TasksKept(s, t, e.t);
  }

  lemma SwapCore(s: State, e: Event, t: State)
    requires Inv(s) && SwapStep(s, e, t)
    ensures Quiet(t.core) && Flows(s.core, t.core)
  {
    assert e.t in s.tasks ==> TaskInv(s.core, s.tasks[e.t]);
  }

  lemma SwapTask(s: State, e: Event, t: State)
    requires Quiet(s.core) && SwapStep(s, e, t) && (e.t in s.tasks ==> TaskInv(s.core, s.tasks[e.t]))
    ensures e.t in t.tasks ==> TaskInv(t.core, t.tasks[e.t])
    ensures forall j :: j in t.tasks && j != e.t ==> j in s.tasks && t.tasks[j] == s.tasks[j]
  {
  }

  lemma SwapKeeps(s: State, e: Event, t: State)
    requires Inv(s) && SwapStep(s, e, t)
    ensures Inv(t) && Flows(s.core, t.core)
  {
    SwapCore(s, e, t);
    SwapTask(s, e, t);
    TasksKept(s, t, e.t);
  }

  lemma LayerKeeps(s: State, e: Event, t: State)
    requires Inv(s) && LayerStep(s, e, t)
    ensures Inv(t) && Flows(s.core, t.core)
  {
    assert e.t in s.tasks ==> TaskInv(s.core, s.tasks[e.t]);
    TasksKept(s, t, e.t);
  }

  lemma StepInv(s: State, e: Event, t: State)
    requires Inv(s) && Step(s, e, t)
    ensures Inv(t) && Flows(s.core, t.core)
  {
    if PublicStep(s, e, t) {
      PublicKeeps(s, e, t);
    } else if HealStep(s, e, t) {
      HealKeeps(s, e, t);
    } else if RepairStep(s, e, t) {
      RepairKeeps(s, e, t);
    } else if SwapStep(s, e, t) {
      SwapKeeps(s, e, t);
    } else {
      LayerKeeps(s, e, t);
    }
  }
}
