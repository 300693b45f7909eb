/**
  The protection engine as the program updates it: startup stage by stage, teardown through the
  last-in-first-out cleanup registry, the layers, and the regions of background work. Each method is
  one region under the engine lock and is proved to be the step the runs are made of.
 */
module Engine {
  import opened Options
  import opened Chain
  import opened EngineCore
  import opened EngineRuns
  import opened EngineVerdict

  /** A registered cleanup step; resolver and layer hooks act on what the engine holds when they run. */
  datatype Hook = JobHook(h: Handle) | DohHook | CaptureHook(h: Handle) | DnsHook | LayerHook

  /** How starting a child session ends: no session, one that is not up, or one that is. */
  datatype Boot = Absent | Broken | Up

  /** What the surroundings do while the TCP layer starts. */
  datatype LayerPlan = LayerPlan(usable: bool, note: string, connIP: string, helper: Boot, gateway: Boot, gw: Gateway, attaches: bool)

  /** What the surroundings do during a whole startup. */
  datatype Plan = Plan(job: bool, capture: bool, resolver: bool, scope: string, store: bool, filtered: bool, layer: LayerPlan, cancelled: bool, degraded: bool)

  /** Every stage of startup comes up; a TCP layer that does not is fatal only when the start is cancelled. */
  predicate Succeeds(plan: Plan) {
    plan.job && plan.capture && plan.resolver && (!plan.filtered || ComesUp(plan.layer) || !plan.cancelled)
  }

  /** The remembered strategy of the present network if the store has a usable one, else the built-in one. */
  function Preferred(safe: Strategy, storeOpen: bool, scope: string, saved: map<string, Strategy>, usable: bool): Strategy {
    if storeOpen && scope in saved && usable then saved[scope] else safe
  }

  predicate Planned(p: LayerPlan, desCfg: Option<Config>, tunCfg: Option<Gateway>, base: Strategy) {
    desCfg.Some? && desCfg.value.connIP == p.connIP && SameRun(desCfg.value.strategy, Wrapped(base)) && tunCfg == Some(p.gw)
  }

  /** The TCP layer comes up: helper and gateway both start, and the gateway attaches its adapter. */
  predicate ComesUp(p: LayerPlan) { p.helper == Up && p.gateway == Up && p.attaches }

  function Listed(o: Option<Handle>): seq<Handle> { if o.Some? then [o.value] else [] }

  // ------------------------------------------------------------- what hooks do, as values

  /** The handles hooks look up when they run; capture and job hooks carry their own. */
  datatype Live = Live(dns: Option<Handle>, des: Option<Handle>, tun: Option<Handle>)

  function HookSet(c: Live, hook: Hook): set<Handle> {
    match hook
    case JobHook(h) => {h}
    case DohHook => {}
    case CaptureHook(h) => {h}
    case DnsHook => Held(c.dns)
    case LayerHook => Held(c.des) + Held(c.tun)
  }

  /** The sessions a list of hooks closes. */
  function HookSets(c: Live, hooks: seq<Hook>): set<Handle> {
    if hooks == [] then {} else HookSet(c, hooks[0]) + HookSets(c, hooks[1..])
  }

  function HookOrder(c: Live, hook: Hook): seq<Handle> {
    match hook
    case JobHook(h) => [h]
    case DohHook => []
    case CaptureHook(h) => [h]
    case DnsHook => Listed(c.dns)
    case LayerHook => Listed(c.tun) + Listed(c.des)
  }

  /** What is left to look up once a layer hook has run. */
  function After(c: Live, hooks: seq<Hook>): Live { if LayerHook in hooks then Live(c.dns, None, None) else c }

  /** The order of the closes: the last registered hook first, the gateway before its helper. */
  function CloseOrder(c: Live, hooks: seq<Hook>): seq<Handle> {
    if hooks == [] then [] else CloseOrder(c, hooks[1..]) + HookOrder(After(c, hooks[1..]), hooks[0])
  }

  function BaseHooks(job: Handle, cap: Handle): seq<Hook> { [JobHook(job), DohHook, CaptureHook(cap), DnsHook] }

  function HooksFor(job: Handle, cap: Handle, layer: bool): seq<Hook> {
    BaseHooks(job, cap) + if layer then [LayerHook] else []
  }

  function HookAt(job: Handle, cap: Handle, i: int): Hook {
    if i == 0 then JobHook(job) else if i == 1 then DohHook else if i == 2 then CaptureHook(cap) else if i == 3 then DnsHook else LayerHook
  }

  /** The same list, entry by entry. */
  predicate IsRegistry(hooks: seq<Hook>, job: Handle, cap: Handle, layer: bool) {
    && |hooks| == (if layer then 5 else 4)
    && forall i {:trigger hooks[i]} :: 0 <= i < |hooks| ==> hooks[i] == HookAt(job, cap, i)
  }

  lemma RegistryIs(hooks: seq<Hook>, job: Handle, cap: Handle, layer: bool)
    requires IsRegistry(hooks, job, cap, layer)
    ensures hooks == HooksFor(job, cap, layer)
  {
    var all := HooksFor(job, cap, layer);
    assert |all| == |hooks|;
    assert forall i :: 0 <= i < |hooks| ==> hooks[i] == all[i];
  }

  lemma MoreHooks(c: Live, hook: Hook, rest: seq<Hook>)
    ensures HookSets(c, [hook] + rest) == HookSet(c, hook) + HookSets(c, rest)
    ensures CloseOrder(c, [hook] + rest) == CloseOrder(c, rest) + HookOrder(After(c, rest), hook)
  {
    assert ([hook] + rest)[1..] == rest;
  }

  /** Job, DoH client, capture and resolver, whatever follows them. */
  lemma FourHooks(c: Live, job: Handle, cap: Handle, rest: seq<Hook>)
    ensures HookSets(c, BaseHooks(job, cap) + rest) == {job, cap} + Held(c.dns) + HookSets(c, rest)
    ensures CloseOrder(c, BaseHooks(job, cap) + rest) == CloseOrder(c, rest) + (Listed(c.dns) + [cap] + [job])
  {
    var one, two, three := [DnsHook] + rest, [CaptureHook(cap)] + ([DnsHook] + rest), [DohHook] + ([CaptureHook(cap)] + ([DnsHook] + rest));
    MoreHooks(c, DnsHook, rest);
    MoreHooks(c, CaptureHook(cap), one);
    MoreHooks(c, DohHook, two);
    MoreHooks(c, JobHook(job), three);
    assert BaseHooks(job, cap) + rest == [JobHook(job)] + three;
  }

  /** The hooks registered so far during startup. */
  function BootHooks(job: Option<Handle>, cap: Option<Handle>, dns: Option<Handle>): seq<Hook> {
    if job.None? then []
    else if cap.None? then [JobHook(job.value), DohHook]
    else if dns.None? then [JobHook(job.value), DohHook, CaptureHook(cap.value)]
    else BaseHooks(job.value, cap.value)
  }

  /** Job, capture and resolver come up in this order, each under a new name. */
  predicate Stages(from: nat, job: Option<Handle>, cap: Option<Handle>, dns: Option<Handle>) {
    && (cap.Some? ==> job.Some?) && (dns.Some? ==> cap.Some?)
    && (job.Some? ==> job.value.Job? && job.value.id >= from)
    && (cap.Some? ==> cap.value.Capture? && cap.value.id >= from)
    && (dns.Some? ==> dns.value.Resolver? && dns.value.id >= from)
  }

  function BootAt(job: Option<Handle>, cap: Option<Handle>, i: int): Hook {
    if i == 0 && job.Some? then JobHook(job.value) else if i == 2 && cap.Some? then CaptureHook(cap.value) else if i == 3 then DnsHook else DohHook
  }

  predicate IsBoot(hooks: seq<Hook>, job: Option<Handle>, cap: Option<Handle>, dns: Option<Handle>) {
    && |hooks| == (if job.None? then 0 else if cap.None? then 2 else if dns.None? then 3 else 4)
    && forall i {:trigger hooks[i]} :: 0 <= i < |hooks| ==> hooks[i] == BootAt(job, cap, i)
  }

  lemma BootIs(hooks: seq<Hook>, job: Option<Handle>, cap: Option<Handle>, dns: Option<Handle>)
    requires IsBoot(hooks, job, cap, dns)
    ensures hooks == BootHooks(job, cap, dns)
  {
    var all := BootHooks(job, cap, dns);
    assert |all| == |hooks|;
    assert forall i :: 0 <= i < |hooks| ==> hooks[i] == all[i];
  }

  lemma BootPlusLayer(hooks: seq<Hook>, job: Option<Handle>, cap: Option<Handle>, dns: Option<Handle>)
    requires IsBoot(hooks, job, cap, dns) && job.Some? && cap.Some? && dns.Some?
    ensures IsRegistry(hooks + [LayerHook], job.value, cap.value, true)
  {
  }

  lemma BootSets(c: Live, job: Option<Handle>, cap: Option<Handle>)
    requires (cap.Some? ==> job.Some?) && (c.dns.Some? ==> cap.Some?)
    ensures HookSets(c, BootHooks(job, cap, c.dns)) == Held(job) + Held(cap) + Held(c.dns)
    ensures LayerHook !in BootHooks(job, cap, c.dns)
  {
    if job.Some? {
      if cap.None? {
        MoreHooks(c, DohHook, []);
        MoreHooks(c, JobHook(job.value), [DohHook] + []);
        assert BootHooks(job, cap, c.dns) == [JobHook(job.value)] + ([DohHook] + []);
      } else if c.dns.None? {
        MoreHooks(c, CaptureHook(cap.value), []);
        MoreHooks(c, DohHook, [CaptureHook(cap.value)] + []);
        MoreHooks(c, JobHook(job.value), [DohHook] + ([CaptureHook(cap.value)] + []));
        assert BootHooks(job, cap, c.dns) == [JobHook(job.value)] + ([DohHook] + ([CaptureHook(cap.value)] + []));
      } else {
        FourHooks(c, job.value, cap.value, []);
        assert BaseHooks(job.value, cap.value) + [] == BaseHooks(job.value, cap.value);
      }
    }
  }

  /** The registry of a running engine gives back exactly what the engine holds, in this order. */
  lemma TeardownPlan(c: Live, job: Handle, cap: Handle, layer: bool)
    requires !layer ==> c.des.None? && c.tun.None?
    ensures HookSets(c, HooksFor(job, cap, layer)) == {job, cap} + Held(c.dns) + Held(c.des) + Held(c.tun)
    ensures LayerHook in HooksFor(job, cap, layer) <==> layer
    ensures CloseOrder(c, HooksFor(job, cap, layer)) == (Listed(c.tun) + Listed(c.des)) + (Listed(c.dns) + [cap] + [job])
  {
    if layer {
      LayeredPlan(c, job, cap);
    } else {
      PlainPlan(c, job, cap);
    }
  }

  lemma LayeredPlan(c: Live, job: Handle, cap: Handle)
    ensures HookSets(c, HooksFor(job, cap, true)) == {job, cap} + Held(c.dns) + Held(c.des) + Held(c.tun)
    ensures LayerHook in HooksFor(job, cap, true)
    ensures CloseOrder(c, HooksFor(job, cap, true)) == (Listed(c.tun) + Listed(c.des)) + (Listed(c.dns) + [cap] + [job])
  {
    FourHooks(c, job, cap, [LayerHook]);
    OneHook(c);
    LastHook(job, cap);
    Unite({job, cap} + Held(c.dns), Held(c.des), Held(c.tun));
  }

  lemma LastHook(job: Handle, cap: Handle)
    ensures LayerHook in HooksFor(job, cap, true)
  {
    assert HooksFor(job, cap, true)[4] == LayerHook;
  }

  lemma Unite(a: set<Handle>, b: set<Handle>, c: set<Handle>)
    ensures a + (b + c) == a + b + c
  {
  }

  lemma PlainPlan(c: Live, job: Handle, cap: Handle)
    ensures HookSets(c, HooksFor(job, cap, false)) == {job, cap} + Held(c.dns)
    ensures LayerHook !in HooksFor(job, cap, false)
    ensures CloseOrder(c, HooksFor(job, cap, false)) == [] + (Listed(c.dns) + [cap] + [job])
  {
    FourHooks(c, job, cap, []);
  }

  lemma OneHook(c: Live)
    ensures HookSets(c, [LayerHook]) == Held(c.des) + Held(c.tun) && CloseOrder(c, [LayerHook]) == Listed(c.tun) + Listed(c.des)
  {
    MoreHooks(c, LayerHook, []);
    assert [LayerHook] + [] == [LayerHook];
  }

  lemma Associative(a: seq<Handle>, b: seq<Handle>, c: seq<Handle>)
    ensures (a + b) + c == a + (b + c)
  {
  }

  /** One more hook on top of those already fired. */
  lemma FireAt(c: Live, hooks: seq<Hook>, i: nat)
    requires i < |hooks|
    ensures HookSets(c, hooks[i + 1..]) + HookSet(After(c, hooks[i + 1..]), hooks[i]) == HookSets(c, hooks[i..])
    ensures CloseOrder(c, hooks[i..]) == CloseOrder(c, hooks[i + 1..]) + HookOrder(After(c, hooks[i + 1..]), hooks[i])
    ensures LayerHook in hooks[i..] <==> hooks[i] == LayerHook || LayerHook in hooks[i + 1..]
  {
    assert hooks[i..] == [hooks[i]] + hooks[i + 1..];
    MoreHooks(c, hooks[i], hooks[i + 1..]);
    if LayerHook in hooks[i + 1..] {
      LayerCounted(c, hooks[i + 1..]);
    }
  }

  /** The same for what is open and for the order of the closes. */
  lemma FireNext(c: Live, hooks: seq<Hook>, i: nat, open: set<Handle>, trace: seq<Handle>)
    requires i < |hooks|
    ensures open - HookSets(c, hooks[i + 1..]) - HookSet(After(c, hooks[i + 1..]), hooks[i]) == open - HookSets(c, hooks[i..])
    ensures (trace + CloseOrder(c, hooks[i + 1..])) + HookOrder(After(c, hooks[i + 1..]), hooks[i]) == trace + CloseOrder(c, hooks[i..])
    ensures LayerHook in hooks[i..] <==> hooks[i] == LayerHook || LayerHook in hooks[i + 1..]
  {
    FireAt(c, hooks, i);
    var done, next := HookSets(c, hooks[i + 1..]), HookSet(After(c, hooks[i + 1..]), hooks[i]);
    assert open - done - next == open - (done + next);
    Associative(trace, CloseOrder(c, hooks[i + 1..]), HookOrder(After(c, hooks[i + 1..]), hooks[i]));
  }

  lemma {:induction false} LayerCounted(c: Live, hooks: seq<Hook>)
    requires LayerHook in hooks
    ensures Held(c.des) + Held(c.tun) <= HookSets(c, hooks)
  {
    if hooks[0] != LayerHook {
      LayerCounted(c, hooks[1..]);
    }
  }

  /** A complete stack is a started engine. */
  lemma Launched(c: Core, d: Core)
    requires c.state == Stopped && Running(d.state) && (c.storeOpen ==> d.storeOpen) && c.next <= d.next
    requires d == c.(sessGen := c.sessGen + 1, state := d.state, protection := true, job := d.job, cap := d.cap, dns := d.dns,
                     des := d.des, tun := d.tun, layer := d.layer, switching := false, scan := None, dnsCfg := true,
                     desCfg := d.desCfg, tunCfg := d.tunCfg, scope := d.scope, storeOpen := d.storeOpen, open := c.open + Owned(d), next := d.next)
    requires d.job.Some? && d.cap.Some? && d.dns.Some? && Stages(c.next, d.job, d.cap, d.dns)
    requires d.job.value.id < d.next && d.cap.value.id < d.next && d.dns.value.id < d.next
    requires if d.layer == Selective
             then && d.des.Some? && d.des.value.Helper? && d.desCfg == Some(d.des.value.cfg) && Chosen(d, d.des.value.cfg)
                  && d.tun.Some? && d.tun.value.Tunnel? && d.tunCfg == Some(d.tun.value.gw) && c.next <= d.des.value.id < d.tun.value.id < d.next
             else d.layer != NoLayer && NoTransport(d)
    ensures Started(c, d)
  {
  }

  lemma Raised(c: Core, d: Core)
    requires d.des.Some? && d.des.value.Helper? && d.desCfg == Some(d.des.value.cfg) && Picks(c.safe, c.storeOpen, Known(c), d.des.value.cfg.strategy)
    requires d.tun.Some? && d.tun.value.Tunnel? && d.tunCfg == Some(d.tun.value.gw) && c.next <= d.des.value.id < d.tun.value.id < d.next
    requires d == c.(des := d.des, tun := d.tun, desCfg := d.desCfg, tunCfg := d.tunCfg, layer := Selective, switching := false,
                     open := c.open + Held(d.des) + Held(d.tun), next := d.next)
    ensures Layered(c, d)
  {
  }

  lemma LayeredQuiet(c: Core)
    requires Quiet(c) && c.protection && c.layer != Selective
    ensures forall d :: Layered(c, d) ==> Quiet(d)
  {
  }

  lemma RebuiltQuiet(c: Core, cfg: Gateway, ok: bool, d: Core)
    requires Quiet(c) && c.protection && c.layer == Selective && Rebuilt(c, cfg, ok, d)
    ensures Quiet(d)
  {
  }

  /** An engine with at most one piece of background work. */
  function Solo(c: Core, task: Option<Task>): State {
    EngineRuns.State(c, if task.Some? then map[0 := task.value] else map[])
  }

  // --------------------------------------------------------------------- the engine

  class Engine {
    var lifeGen: nat
    var sessGen: nat
    var state: EngineCore.Phase
    var protection: bool
    var job: Option<Handle>
    var cap: Option<Handle>
    var dns: Option<Handle>
    var des: Option<Handle>
    var tun: Option<Handle>
    var layer: EngineCore.Layer
    var switching: bool
    var scan: Option<nat>
    var dnsCfg: bool
    var desCfg: Option<Config>
    var tunCfg: Option<Gateway>
    const safe: Strategy
    var scope: string
    var storeOpen: bool
    var saved: map<string, Strategy>
    var open: set<Handle>
    var next: nat
    var hooks: seq<Hook>
    var layerCleanup: bool
    ghost var trace: seq<Handle>

    ghost function View(): Core
      reads this
    {
      Core(lifeGen, sessGen, state, protection, job, cap, dns, des, tun, layer, switching, scan, dnsCfg, desCfg, tunCfg,
           safe, scope, storeOpen, saved, open, next)
    }

    /** The registry holds a hook for everything the engine must give back. */
    ghost predicate Wired()
      reads this
    {
      if protection then Registered() && (layer == Selective ==> layerCleanup) else hooks == []
    }

    ghost predicate Registered()
      reads this`job, this`cap, this`des, this`tun, this`desCfg, this`tunCfg, this`hooks, this`layerCleanup
    {
      && job.Some? && cap.Some? && IsRegistry(hooks, job.value, cap.value, layerCleanup)
      && (!layerCleanup ==> des.None? && tun.None? && desCfg.None? && tunCfg.None?)
    }

    ghost predicate Fresh()
      reads this
    {
      forall h :: h in open ==> h.id < next
    }

    ghost predicate Valid()
      reads this
    {
      Quiet(View()) && Wired() && Fresh()
    }

    constructor (safe: Strategy, saved: map<string, Strategy>)
      ensures Valid() && View() == Initial(safe, saved).core
    {
      lifeGen, sessGen, state, protection := 0, 0, Stopped, false;
      job, cap, dns, des, tun := None, None, None, None, None;
      layer, switching, scan, dnsCfg, desCfg, tunCfg := NoLayer, false, None, false, None, None;
      this.safe, scope, storeOpen, this.saved, open, next := safe, NO_NETWORK, false, saved, {}, 0;
      hooks, layerCleanup, trace := [], false, [];
    }

    method Close(h: Handle)
      modifies this`open, this`trace
      ensures open == old(open) - {h} && trace == old(trace) + [h]
    {
      open := open - {h};
      trace := trace + [h];
    }

    method CancelSession()
      modifies this`sessGen, this`switching, this`scan
      ensures sessGen == old(sessGen) + 1 && !switching && scan.None?
    {
      sessGen := sessGen + 1;
      switching := false;
      scan := None;
    }

    /** stopLayer1Locked: gateway first, then helper; DNS stays up. */
    method StopLayer1()
      modifies this`open, this`trace, this`des, this`tun, this`desCfg, this`tunCfg
      ensures des.None? && tun.None? && desCfg.None? && tunCfg.None?
      ensures open == old(open) - (Held(old(des)) + Held(old(tun)))
      ensures trace == old(trace) + (Listed(old(tun)) + Listed(old(des)))
    {
      if tun.Some? {
        Close(tun.value);
      }
      if des.Some? {
        Close(des.value);
      }
      tun, des := None, None;
      tunCfg, desCfg := None, None;
    }

    method Fire(hook: Hook)
      modifies this`open, this`trace, this`des, this`tun, this`desCfg, this`tunCfg
      ensures open == old(open) - HookSet(old(Looked()), hook)
      ensures trace == old(trace) + HookOrder(old(Looked()), hook)
      ensures if hook == LayerHook then NoLive() else SameLive(old(des), old(tun), old(desCfg), old(tunCfg))
    {
      match hook
      case JobHook(h) => Close(h);
      case DohHook =>
      case CaptureHook(h) => Close(h);
      case DnsHook =>
        if dns.Some? {
          Close(dns.value);
        }
      case LayerHook => StopLayer1();
    }

    ghost function Looked(): Live
      reads this`dns, this`des, this`tun
    {
      Live(dns, des, tun)
    }

    ghost predicate NoLive()
      reads this`des, this`tun, this`desCfg, this`tunCfg
    {
      des.None? && tun.None? && desCfg.None? && tunCfg.None?
    }

    ghost predicate SameLive(wasDes: Option<Handle>, wasTun: Option<Handle>, wasDesCfg: Option<Config>, wasTunCfg: Option<Gateway>)
      reads this`des, this`tun, this`desCfg, this`tunCfg
    {
      des == wasDes && tun == wasTun && desCfg == wasDesCfg && tunCfg == wasTunCfg
    }

    /** The hooks from i on have run. */
    ghost predicate Fired(c: Live, i: int, wasOpen: set<Handle>, wasTrace: seq<Handle>)
      reads this`open, this`trace, this`hooks
      requires 0 <= i <= |hooks|
    {
      open == wasOpen - HookSets(c, hooks[i..]) && trace == wasTrace + CloseOrder(c, hooks[i..])
    }

    /** Registry.Run: a reverse loop over the registered hooks. */
    method RunHooks()
      modifies this`open, this`trace, this`des, this`tun, this`desCfg, this`tunCfg
      ensures open == old(open) - HookSets(old(Looked()), hooks)
      ensures trace == old(trace) + CloseOrder(old(Looked()), hooks)
      ensures if LayerHook in hooks then NoLive() else SameLive(old(des), old(tun), old(desCfg), old(tunCfg))
    {
      ghost var c := Looked();
      var i := |hooks|;
      while i > 0
        invariant 0 <= i <= |hooks|
        invariant Fired(c, i, old(open), old(trace))
        invariant if LayerHook in hooks[i..] then NoLive() else SameLive(old(des), old(tun), old(desCfg), old(tunCfg))
      {
        FireNext(c, hooks, i - 1, old(open), old(trace));
        assert Looked() == After(c, hooks[i..]);
        i := i - 1;
        Fire(hooks[i]);
      }
      assert hooks[0..] == hooks;
    }

    // ------------------------------------------------------------------------ layers

    method OpenHelper(cfg: Config) returns (h: Handle)
      requires Fresh()
      modifies this`open, this`next
      ensures Fresh() && h == Helper(old(next), cfg) && next == old(next) + 1 && open == old(open) + {h} && h !in old(open)
    {
      h := Helper(next, cfg);
      next, open := next + 1, open + {h};
    }

    method OpenTunnel(gw: Gateway) returns (h: Handle)
      requires Fresh()
      modifies this`open, this`next
      ensures Fresh() && h == Tunnel(old(next), gw) && next == old(next) + 1 && open == old(open) + {h} && h !in old(open)
    {
      h := Tunnel(next, gw);
      next, open := next + 1, open + {h};
    }

    /** StrategyStore.Lookup under the scope of the present network. */
    function Remembers(): Option<Strategy>
      reads this`scope, this`saved
    {
      if scope in saved then Some(saved[scope]) else None
    }

    /** The strategy of a new helper: the remembered one if it is usable, else the built-in one. */
    method ChooseStrategy(usable: bool, note: string) returns (s: Strategy)
      ensures Picks(safe, storeOpen, Remembers(), s) && SameRun(s, Wrapped(Preferred(safe, storeOpen, scope, saved, usable)))
    {
      var base := safe;
      if storeOpen && scope in saved && usable {
        base := saved[scope].(note := note);
        WrapSameRun(base, saved[scope]);
      }
      s := PassThroughFirst(base);
    }

    /** The helper half of startLayer1Locked. */
    method StartHelper(p: LayerPlan) returns (ok: bool)
      requires des.None? && desCfg.None? && Fresh()
      modifies this`des, this`desCfg, this`open, this`next, this`trace
      ensures Fresh() && old(next) <= next && ok == (p.helper == Up)
      ensures ok ==> des.Some? && des.value.Helper? && des.value.cfg.connIP == p.connIP
      ensures ok ==> SameRun(des.value.cfg.strategy, Wrapped(Preferred(safe, storeOpen, scope, saved, p.usable)))
      ensures !ok ==> des.None? && desCfg.None? && open == old(open)
      ensures ok ==> des.Some? && des.value.Helper? && desCfg == Some(des.value.cfg) && Picks(safe, storeOpen, Remembers(), des.value.cfg.strategy)
      ensures ok ==> old(next) <= des.value.id < next && open == old(open) + {des.value} && des.value !in old(open)
    {
      var strategy := ChooseStrategy(p.usable, p.note);
      var cfg := Config(strategy, p.connIP);
      if p.helper == Absent {
        return false;
      }
      var h := OpenHelper(cfg);
      if p.helper == Broken {
        Close(h);
        return false;
      }
      des, desCfg := Some(h), Some(cfg);
      return true;
    }

    /** The gateway half: any failure takes the helper down with it. */
    method StartGateway(p: LayerPlan) returns (ok: bool)
      requires tun.None? && tunCfg.None? && Fresh()
      modifies this`des, this`tun, this`desCfg, this`tunCfg, this`open, this`next, this`trace
      ensures Fresh() && old(next) <= next && ok == (p.gateway == Up && p.attaches) && (ok ==> tunCfg == Some(p.gw))
      ensures !ok ==> des.None? && tun.None? && desCfg.None? && tunCfg.None? && open == old(open) - Held(old(des))
      ensures ok ==> des == old(des) && desCfg == old(desCfg) && tun.Some? && tun.value.Tunnel? && tunCfg == Some(tun.value.gw)
      ensures ok ==> old(next) <= tun.value.id < next && open == old(open) + {tun.value}
    {
      if p.gateway == Absent {
        StopLayer1();
        return false;
      }
      var h := OpenTunnel(p.gw);
      if p.gateway == Broken {
        Close(h);
        StopLayer1();
        return false;
      }
      tun, tunCfg := Some(h), Some(p.gw);
      if !p.attaches {
        StopLayer1();
        return false;
      }
      return true;
    }

    /** One helper and one gateway, both named since `from` and running their configurations. */
    ghost predicate TransportUp(from: nat)
      reads this`des, this`tun, this`desCfg, this`tunCfg, this`next, this`scope, this`storeOpen, this`saved
    {
      && des.Some? && des.value.Helper? && desCfg == Some(des.value.cfg) && Picks(safe, storeOpen, Remembers(), des.value.cfg.strategy)
      && tun.Some? && tun.value.Tunnel? && tunCfg == Some(tun.value.gw) && from <= des.value.id < tun.value.id < next
    }

    /** Helper and gateway run what the plan asks for. */
    ghost predicate AsPlanned(p: LayerPlan)
      reads this`desCfg, this`tunCfg, this`scope, this`storeOpen, this`saved
    {
      Planned(p, desCfg, tunCfg, Preferred(safe, storeOpen, scope, saved, p.usable))
    }

    method StartTransport(p: LayerPlan) returns (ok: bool)
      requires NoLive() && Fresh()
      modifies this`des, this`tun, this`desCfg, this`tunCfg, this`open, this`next, this`trace
      ensures Fresh() && old(next) <= next && ok == ComesUp(p) && (ok ==> AsPlanned(p))
      ensures !ok ==> NoLive() && open == old(open)
      ensures ok ==> TransportUp(old(next)) && open == old(open) + {des.value, tun.value}
    {
      ok := StartHelper(p);
      if ok {
        ghost var h := des.value;
        ok := StartGateway(p);
        assert !ok ==> open == (old(open) + {h}) - {h} == old(open);
      }
    }

    /** startLayer1Locked: both halves or nothing, and one layer hook per session. */
    method StartLayer1(p: LayerPlan) returns (ok: bool)
      requires NoLive() && Fresh()
      modifies this`des, this`tun, this`desCfg, this`tunCfg, this`open, this`next, this`trace, this`hooks, this`layerCleanup, this`layer
      ensures Fresh() && old(next) <= next
      ensures ok <==> p.helper == Up && p.gateway == Up && p.attaches
      ensures ok ==> desCfg.Some? && desCfg.value.connIP == p.connIP && tunCfg == Some(p.gw)
      ensures ok ==> SameRun(desCfg.value.strategy, Wrapped(if storeOpen && scope in saved && p.usable then saved[scope] else safe))
      ensures !ok ==> NoLive() && open == old(open) && hooks == old(hooks) && layerCleanup == old(layerCleanup) && layer == old(layer)
      ensures ok ==> TransportUp(old(next)) && open == old(open) + {des.value, tun.value} && layer == Selective && layerCleanup
      ensures ok ==> hooks == if old(layerCleanup) then old(hooks) else old(hooks) + [LayerHook]
    {
      ok := StartTransport(p);
      if ok {
        if !layerCleanup {
          layerCleanup := true;
          hooks := hooks + [LayerHook];
        }
        layer := Selective;
      }
    }

    /** fallbackLocked keeps DNS protection when the TCP layer cannot start. */
    method FallBack()
      modifies this`open, this`trace, this`des, this`tun, this`desCfg, this`tunCfg, this`layer
      ensures NoLive() && layer == Fallback && open == old(open) - (Held(old(des)) + Held(old(tun)))
    {
      StopLayer1();
      layer := Fallback;
    }

    // ---------------------------------------------------------------------- lifecycle

    /** The registry gives back exactly what a running engine holds, last registered first. */
    method TearDown()
      requires Registered()
      modifies this`open, this`trace, this`des, this`tun, this`desCfg, this`tunCfg, this`hooks
      ensures NoLive() && hooks == []
      ensures open == old(open) - (Held(job) + Held(cap) + Held(dns) + Held(old(des)) + Held(old(tun)))
      ensures trace == old(trace) + ((Listed(old(tun)) + Listed(old(des))) + (Listed(old(dns)) + [cap.value] + [job.value]))
    {
      RegistryIs(hooks, job.value, cap.value, layerCleanup);
      TeardownPlan(Looked(), job.value, cap.value, layerCleanup);
      RunHooks();
      hooks := [];
    }

    method Forget()
      modifies this`state, this`protection, this`cap, this`dns, this`des, this`tun, this`job
      ensures state == Stopped && !protection && job.None? && cap.None? && dns.None? && des.None? && tun.None?
    {
      state := Stopped;
      protection := false;
      cap, dns, des, tun, job := None, None, None, None, None;
    }

    /** The body of stopLocked: ends the session first, then runs the hooks, then forgets everything. */
    method StopRunning()
      requires Registered()
      modifies this`state, this`protection, this`sessGen, this`switching, this`scan, this`job, this`cap, this`dns, this`des, this`tun,
               this`desCfg, this`tunCfg, this`open, this`trace, this`hooks
      ensures state == Stopped && !protection && sessGen == old(sessGen) + 1 && !switching && scan.None? && hooks == []
      ensures job.None? && cap.None? && dns.None? && des.None? && tun.None? && desCfg.None? && tunCfg.None?
      ensures open == old(open) - Owned(old(View()))
    {
      state := Stopping;
      CancelSession();
      TearDown();
      Forget();
    }

    method StopLocked() returns (running: bool)
      requires Valid()
      modifies this
      ensures Valid() && View() == StopFn(old(View())) && running == (old(state) != Stopped)
    {
      if state == Stopped {
        return false;
      }
      StopNow();
      return true;
    }

    method StopNow()
      requires Valid() && state != Stopped
      modifies this`state, this`protection, this`sessGen, this`switching, this`scan, this`job, this`cap, this`dns, this`des, this`tun,
               this`desCfg, this`tunCfg, this`open, this`trace, this`hooks
      ensures Valid() && View() == StopFn(old(View()))
    {
      ghost var c := View();
      StopKeeps(c);
      StopRunning();
      ShowStopped(c);
    }

    /** The engine as it is now is what stopping makes of c. */
    lemma ShowStopped(c: Core)
      requires lifeGen == c.lifeGen && sessGen == c.sessGen + 1 && state == Stopped && !protection && !switching && scan.None?
      requires NoHandles(View()) && NoTransport(View()) && layer == c.layer && dnsCfg == c.dnsCfg && safe == c.safe
      requires scope == c.scope && storeOpen == c.storeOpen && saved == c.saved && open == c.open - Owned(c) && next == c.next
      ensures View() == TornDown(EngineCore.CancelSession(c))
    {
    }

    method Stop() returns (running: bool)
      requires Valid()
      modifies this
      ensures Valid() && View() == StopFn(Bumped(old(View())))
    {
      lifeGen := lifeGen + 1;
      running := StopLocked();
    }

    method Repair()
      requires Valid()
      modifies this
      ensures Valid() && View() == StopFn(Bumped(old(View()))).(storeOpen := false, scope := NO_NETWORK)
    {
      lifeGen := lifeGen + 1;
      if protection || state != Stopped {
        var _ := StopLocked();
      }
      DropPolicy();
    }

    /** The policy is discarded: no store, no observed network. */
    method DropPolicy()
      requires Valid()
      modifies this`storeOpen, this`scope
      ensures Valid() && View() == old(View()).(storeOpen := false, scope := NO_NETWORK)
    {
      storeOpen := false;
      scope := NO_NETWORK;
    }

    /** CrashCleanup: best effort in any state; helper, gateway and job are closed again if still held. */
    method CrashCleanup()
      requires Valid()
      modifies this
      ensures Valid() && View() == CrashFn(Bumped(old(View())))
    {
      lifeGen := lifeGen + 1;
      CrashLocked();
    }

    method CrashLocked()
      requires Valid()
      modifies this
      ensures Valid() && View() == CrashFn(old(View()))
    {
      StopKeeps(View());
      if protection {
        CrashRunning();
      } else {
        assert Owned(View()) == {};
        CrashStopped();
      }
    }

    method CrashRunning()
      requires Registered()
      modifies this`state, this`protection, this`sessGen, this`switching, this`scan, this`job, this`cap, this`dns, this`des, this`tun,
               this`desCfg, this`tunCfg, this`open, this`trace, this`hooks
      ensures state == Stopped && !protection && sessGen == old(sessGen) + 1 && !switching && scan.None? && hooks == []
      ensures job.None? && cap.None? && dns.None? && des.None? && tun.None? && desCfg.None? && tunCfg.None?
      ensures open == old(open) - Owned(old(View()))
    {
      CancelSession();
      TearDown();
      CloseRest();
      Forget();
    }

    method CrashStopped()
      requires NoHandles(View()) && hooks == []
      modifies this`state, this`protection, this`sessGen, this`switching, this`scan, this`job, this`cap, this`dns, this`des, this`tun,
               this`desCfg, this`tunCfg, this`open, this`trace, this`hooks
      ensures state == Stopped && !protection && sessGen == old(sessGen) + 1 && !switching && scan.None? && hooks == []
      ensures job.None? && cap.None? && dns.None? && des.None? && tun.None? && desCfg == old(desCfg) && tunCfg == old(tunCfg) && open == old(open)
    {
      CancelSession();
      RunHooks();
      CloseRest();
      Forget();
    }

    /** Whatever the hooks did not clear is closed directly. */
    method CloseRest()
      modifies this`open, this`trace, this`des, this`tun, this`job
      ensures des.None? && tun.None? && job.None? && open == old(open) - (Held(old(des)) + Held(old(tun)) + Held(old(job)))
    {
      if des.Some? {
        Close(des.value);
        des := None;
      }
      if tun.Some? {
        Close(tun.value);
        tun := None;
      }
      if job.Some? {
        Close(job.value);
        job := None;
      }
    }

    // ------------------------------------------------------------------------ startup

    /** Part of the way up from c: what was opened so far is held and has its hook. */
    ghost predicate Booting(c: Core)
      reads this
    {
      && c.state == Stopped && (forall h :: h in c.open ==> h.id < c.next)
      && lifeGen == c.lifeGen && sessGen == c.sessGen + 1 && state == Starting && !protection
      && des.None? && tun.None? && desCfg.None? && tunCfg.None? && layer == NoLayer && !switching && scan.None?
      && safe == c.safe && saved == c.saved && (c.storeOpen ==> storeOpen)
      && Fresh() && c.next <= next && open == c.open + (Held(job) + Held(cap) + Held(dns))
      && IsBoot(hooks, job, cap, dns) && !layerCleanup && Stages(c.next, job, cap, dns)
    }

    method ResetFields()
      modifies this`state, this`sessGen, this`switching, this`scan, this`dnsCfg, this`desCfg, this`tunCfg, this`layer, this`layerCleanup
      ensures state == Starting && sessGen == old(sessGen) + 1 && !switching && scan.None?
      ensures !dnsCfg && desCfg.None? && tunCfg.None? && layer == NoLayer && !layerCleanup
    {
      state := Starting;
      CancelSession();
      dnsCfg, desCfg, tunCfg := false, None, None;
      layer, layerCleanup := NoLayer, false;
    }

    method Begin()
      requires Valid() && state == Stopped
      modifies this`state, this`sessGen, this`switching, this`scan, this`dnsCfg, this`desCfg, this`tunCfg, this`layer, this`layerCleanup
      ensures Booting(old(View())) && job.None?
    {
      assert Held(job) + Held(cap) + Held(dns) == {};
      assert open == open + {};
      ResetFields();
    }

    method UnwindHooks(ghost c: Core)
      requires des.None? && tun.None? && IsBoot(hooks, job, cap, dns) && Stages(c.next, job, cap, dns)
      requires open == c.open + (Held(job) + Held(cap) + Held(dns)) && forall h :: h in c.open ==> h.id < c.next
      modifies this`open, this`trace, this`des, this`tun, this`desCfg, this`tunCfg, this`hooks
      ensures open == c.open && hooks == [] && des.None? && tun.None?
    {
      BootIs(hooks, job, cap, dns);
      BootSets(Looked(), job, cap);
      ghost var s := Held(job) + Held(cap) + Held(dns);
      assert c.open !! s;
      RunHooks();
      assert open == (c.open + s) - s == c.open;
      hooks := [];
    }

    /** The fail closure: everything that was opened is closed through its hook. */
    method Unwind(ghost c: Core)
      requires des.None? && tun.None? && IsBoot(hooks, job, cap, dns) && Stages(c.next, job, cap, dns)
      requires open == c.open + (Held(job) + Held(cap) + Held(dns)) && forall h :: h in c.open ==> h.id < c.next
      modifies this`state, this`protection, this`open, this`trace, this`des, this`tun, this`desCfg, this`tunCfg, this`hooks,
               this`cap, this`dns, this`job, this`dnsCfg
      ensures state == Stopped && !protection && hooks == [] && open == c.open && !dnsCfg && NoLive()
      ensures job.None? && cap.None? && dns.None?
    {
      state, protection := Stopped, false;
      UnwindHooks(c);
      StopLayer1();
      cap, dns := None, None;
      dnsCfg := false;
      job := None;
    }

    method Fail(ghost c: Core)
      requires Booting(c)
      modifies this`state, this`protection, this`open, this`trace, this`des, this`tun, this`desCfg, this`tunCfg, this`hooks,
               this`cap, this`dns, this`job, this`dnsCfg, this`sessGen, this`switching, this`scan
      ensures StartFailed(c, View()) && hooks == [] && !protection && Fresh()
    {
      Unwind(c);
      CancelSession();
    }

    method OpenJob(ghost c: Core)
      requires Booting(c) && job.None?
      modifies this`job, this`open, this`next, this`hooks
      ensures Booting(c) && job.Some? && cap.None?
    {
      var h := Job(next);
      next, open := next + 1, open + {h};
      job := Some(h);
      hooks := hooks + [JobHook(h)];
      hooks := hooks + [DohHook];
    }

    method OpenCapture(ghost c: Core)
      requires Booting(c) && job.Some? && cap.None?
      modifies this`cap, this`open, this`next, this`hooks
      ensures Booting(c) && cap.Some? && dns.None?
    {
      var h := Capture(next);
      next, open := next + 1, open + {h};
      cap := Some(h);
      hooks := hooks + [CaptureHook(h)];
    }

    method OpenResolver(ghost c: Core)
      requires Booting(c) && cap.Some? && dns.None?
      modifies this`dns, this`open, this`next, this`hooks
      ensures Booting(c) && dns.Some?
    {
      var h := Resolver(next);
      next, open := next + 1, open + {h};
      dns := Some(h);
      hooks := hooks + [DnsHook];
    }

    /** The stack that Booting had in hand, plus a chosen layer. */
    ghost predicate Ready(c: Core)
      reads this
    {
      && c.state == Stopped
      && lifeGen == c.lifeGen && sessGen == c.sessGen + 1 && !switching && scan.None? && dnsCfg
      && safe == c.safe && saved == c.saved && (c.storeOpen ==> storeOpen) && Fresh() && c.next <= next
      && job.Some? && cap.Some? && dns.Some? && Stages(c.next, job, cap, dns) && job.value.id < next && cap.value.id < next && dns.value.id < next
      && open == c.open + (Held(job) + Held(cap) + Held(dns)) + (Held(des) + Held(tun))
      && IsRegistry(hooks, job.value, cap.value, layerCleanup)
      && (if layer == Selective then TransportUp(c.next) && layerCleanup else layer != NoLayer && NoLive() && !layerCleanup)
    }

    method StayOnDns(ghost c: Core, choice: EngineCore.Layer)
      requires Booting(c) && dns.Some? && dnsCfg && (choice == DnsOnly || choice == Fallback)
      modifies this`layer
      ensures Ready(c) && layer == choice
    {
      layer := choice;
      assert open == open + (Held(des) + Held(tun));
    }

    method AddTransport(ghost c: Core, p: LayerPlan) returns (up: bool)
      requires Booting(c) && dns.Some? && dnsCfg
      modifies this`des, this`tun, this`desCfg, this`tunCfg, this`open, this`next, this`trace, this`hooks, this`layerCleanup, this`layer
      ensures up == ComesUp(p) && (up ==> layer == Selective && AsPlanned(p))
      ensures !up ==> Booting(c)
      ensures up ==> Ready(c)
    {
      ghost var base := hooks;
      up := StartLayer1(p);
      if up {
        BootPlusLayer(base, job, cap, dns);
        assert {des.value, tun.value} == Held(des) + Held(tun);
      }
    }

    method ChooseLayer(ghost c: Core, filtered: bool, p: LayerPlan, cancelled: bool) returns (ok: bool)
      requires Booting(c) && dns.Some? && dnsCfg
      modifies this`des, this`tun, this`desCfg, this`tunCfg, this`open, this`next, this`trace, this`hooks, this`layerCleanup, this`layer
      ensures ok <==> !filtered || ComesUp(p) || !cancelled
      ensures ok ==> Ready(c) && layer == (if !filtered then DnsOnly else if ComesUp(p) then Selective else Fallback)
      ensures ok && layer == Selective ==> AsPlanned(p)
      ensures !ok ==> Booting(c)
    {
      if !filtered {
        StayOnDns(c, DnsOnly);
        return true;
      }
      var up := AddTransport(c, p);
      if up {
        return true;
      }
      if cancelled {
        return false;
      }
      KeepDns(c);
      return true;
    }

    /** The fallback of startup: whatever is left of the TCP layer is closed and DNS stays. */
    method KeepDns(ghost c: Core)
      requires Booting(c) && dns.Some? && dnsCfg
      modifies this`open, this`trace, this`des, this`tun, this`desCfg, this`tunCfg, this`layer
      ensures Ready(c) && layer == Fallback
    {
      StopLayer1();
      assert open == old(open) - ({} + {});
      StayOnDns(c, Fallback);
    }

    method GoLive(ghost c: Core, degraded: bool)
      requires Ready(c)
      modifies this`state, this`protection
      ensures desCfg == old(desCfg) && tunCfg == old(tunCfg) && layer == old(layer)
      ensures scope == old(scope) && storeOpen == old(storeOpen) && saved == old(saved)
      ensures state == if degraded then Degraded else Active
      ensures Started(c, View()) && Wired() && protection && Fresh()
    {
      protection := true;
      state := if degraded then Degraded else Active;
      assert open == c.open + Owned(View());
      Launched(c, View());
    }

    /** What a start according to the plan leaves running. */
    ghost predicate AsStarted(plan: Plan)
      reads this
    {
      && protection && state == (if plan.degraded then Degraded else Active) && scope == plan.scope
      && layer == (if !plan.filtered then DnsOnly else if ComesUp(plan.layer) then Selective else Fallback)
      && (layer == Selective ==> AsPlanned(plan.layer))
    }

    /** startLocked, stage by stage; every failure goes through the registry. */
    method StartLocked(okMode: bool, plan: Plan) returns (ok: bool)
      requires Valid()
      modifies this
      ensures Valid() && StartRel(old(View()), okMode, View())
      ensures ok <==> okMode && old(state) == Stopped && Succeeds(plan)
      ensures ok ==> AsStarted(plan) && storeOpen == (old(storeOpen) || plan.store)
    {
      if !okMode || state != Stopped {
        return false;
      }
      ghost var c := View();
      Begin();
      ok := BringUp(c, plan);
      StartKeeps(c, true, View());
    }

    method BringUp(ghost c: Core, plan: Plan) returns (ok: bool)
      requires Booting(c) && job.None?
      modifies this
      ensures ok ==> Started(c, View()) && Wired() && protection
      ensures !ok ==> StartFailed(c, View()) && hooks == [] && !protection
      ensures Fresh() && ok == Succeeds(plan)
      ensures ok ==> AsStarted(plan) && storeOpen == (old(storeOpen) || plan.store)
    {
      ok := OpenStack(c, plan);
      if ok {
        ok := FinishUp(c, plan);
      }
      if !ok {
        Fail(c);
      }
    }

    method FinishUp(ghost c: Core, plan: Plan) returns (ok: bool)
      requires Booting(c) && dns.Some? && dnsCfg
      modifies this`des, this`tun, this`desCfg, this`tunCfg, this`open, this`next, this`trace, this`hooks, this`layerCleanup, this`layer,
               this`state, this`protection
      ensures ok ==> Started(c, View()) && Wired() && protection && Fresh()
      ensures !ok ==> Booting(c)
      ensures ok == (!plan.filtered || ComesUp(plan.layer) || !plan.cancelled)
      ensures ok ==> state == (if plan.degraded then Degraded else Active)
      ensures ok ==> layer == (if !plan.filtered then DnsOnly else if ComesUp(plan.layer) then Selective else Fallback)
      ensures ok && layer == Selective ==> AsPlanned(plan.layer)
    {
      ok := ChooseLayer(c, plan.filtered, plan.layer, plan.cancelled);
      if ok {
        GoLive(c, plan.degraded);
      }
    }

    method OpenStack(ghost c: Core, plan: Plan) returns (ok: bool)
      requires Booting(c) && job.None?
      modifies this`job, this`cap, this`dns, this`open, this`next, this`hooks, this`dnsCfg, this`scope, this`storeOpen
      ensures Booting(c) && ok == (plan.job && plan.capture && plan.resolver)
      ensures ok ==> dns.Some? && dnsCfg && scope == plan.scope && storeOpen == (old(storeOpen) || plan.store)
    {
      if !plan.job {
        return false;
      }
      OpenJob(c);
      if !plan.capture {
        return false;
      }
      OpenCapture(c);
      ok := OpenDns(c, plan);
    }

    method OpenDns(ghost c: Core, plan: Plan) returns (ok: bool)
      requires Booting(c) && cap.Some? && dns.None?
      modifies this`dns, this`open, this`next, this`hooks, this`dnsCfg, this`scope, this`storeOpen
      ensures Booting(c) && ok == plan.resolver
      ensures ok ==> dns.Some? && dnsCfg && scope == plan.scope && storeOpen == (old(storeOpen) || plan.store)
    {
      dnsCfg := true;
      if !plan.resolver {
        return false;
      }
      OpenResolver(c);
      scope := plan.scope;
      if !storeOpen {
        storeOpen := plan.store;
      }
      return true;
    }

    method Start(okMode: bool, plan: Plan) returns (ok: bool)
      requires Valid()
      modifies this
      ensures Valid() && StartRel(Bumped(old(View())), okMode, View())
      ensures ok <==> okMode && old(state) == Stopped && plan.job && plan.capture && plan.resolver
                      && (!plan.filtered || (plan.layer.helper == Up && plan.layer.gateway == Up && plan.layer.attaches) || !plan.cancelled)
      ensures ok ==> protection && state == (if plan.degraded then Degraded else Active)
      ensures ok ==> scope == plan.scope && storeOpen == (old(storeOpen) || plan.store)
      ensures ok ==> layer == if !plan.filtered then DnsOnly
                              else if plan.layer.helper == Up && plan.layer.gateway == Up && plan.layer.attaches then Selective else Fallback
      ensures ok && layer == Selective ==> desCfg.Some? && desCfg.value.connIP == plan.layer.connIP && tunCfg == Some(plan.layer.gw)
      ensures ok && layer == Selective ==>
              SameRun(desCfg.value.strategy, Wrapped(if storeOpen && scope in saved && plan.layer.usable then saved[scope] else safe))
    {
      NewLife();
      ok := StartLocked(okMode, plan);
    }

    method NewLife()
      requires Valid()
      modifies this`lifeGen
      ensures Valid() && View() == Bumped(old(View()))
    {
      lifeGen := lifeGen + 1;
    }

    // ---------------------------------------------------------------------- self-heal

    predicate CurrentSession(sess: nat)
      reads this
    {
      sess == sessGen && protection && (state == Active || state == Degraded)
    }

    /** The region of selfHeal that stops the stack for a rebuild. */
    method HealStopRegion(gen: nat, sess: nat) returns (stopped: Option<nat>)
      requires Valid()
      modifies this
      ensures Valid() && (stopped.Some? <==> HealGuard(old(View()), Heal(gen, sess)))
      ensures stopped.None? ==> View() == old(View())
      ensures stopped.Some? ==> View() == StopFn(old(View())) && stopped.value == sessGen
    {
      if gen != lifeGen || !CurrentSession(sess) {
        return None;
      }
      var _ := StopLocked();
      return Some(sessGen);
    }

    /** The last region of selfHeal: restart only what this heal stopped, if nobody interfered. */
    method HealRestartRegion(gen: nat, stopped: nat, plan: Plan)
      requires Valid()
      modifies this
      ensures Valid()
      ensures if RestartGuard(old(View()), HealStopped(gen, stopped)) then StartRel(old(View()), true, View()) else View() == old(View())
    {
      if gen != lifeGen || stopped != sessGen || state != Stopped {
        return;
      }
      var _ := StartLocked(true, plan);
    }

    /** Replaces the helper by one on a new address; a failed start leaves the new configuration for recovery. */
    method MoveHelper(ip: string, starts: bool)
      requires Fresh() && des.Some? && desCfg.Some?
      modifies this`des, this`desCfg, this`open, this`next, this`trace
      ensures Fresh() && old(next) <= next && desCfg == Some(old(desCfg).value.(connIP := ip))
      ensures open == old(open) - Held(old(des)) + Held(des)
      ensures des.Some? ==> des.value.Helper? && des.value.cfg == desCfg.value && old(next) <= des.value.id < next
      ensures des.Some? <==> starts
    {
      var cfg := desCfg.value.(connIP := ip);
      Close(des.value);
      if !starts {
        des, desCfg := None, Some(cfg);
      } else {
        var h := OpenHelper(cfg);
        des, desCfg := Some(h), Some(cfg);
      }
    }

    /** softRebindLocked: keeps the gateway when the physical interface is the same. */
    method SoftRebind(sameInterface: bool, moved: bool, ip: string, starts: bool) returns (ok: bool)
      requires Valid() && protection
      modifies this`des, this`desCfg, this`open, this`next, this`trace
      ensures Valid()
      ensures if ok then Rebound(old(View()), View()) else View() == old(View())
      ensures ok <==> layer != Selective || (old(desCfg).Some? && old(des).Some? && sameInterface)
      ensures if ok && layer == Selective && moved
              then old(desCfg).Some? && desCfg == Some(Config(old(desCfg).value.strategy, ip)) && (des.Some? <==> starts)
              else des == old(des) && desCfg == old(desCfg)
    {
      if layer != Selective {
        return true;
      }
      if desCfg.None? || des.None? || !sameInterface {
        return false;
      }
      if moved {
        MoveHelper(ip, starts);
      }
      return true;
    }

    // --------------------------------------------------------------------- component repair

    /** The first region of recoverComponent, for the component found down. */
    method BeginRepair(sess: nat, want: Want) returns (begun: bool, prior: Option<Handle>)
      requires Valid()
      modifies this`switching
      ensures Valid() && (begun <==> Current(old(View()), sess) && !old(switching) && Wants(old(View()), want))
      ensures if begun then View() == old(View()).(switching := true) && prior == Component(old(View()), want) else View() == old(View())
      ensures begun <==> && sess == sessGen && protection && (state == Active || state == Degraded) && !old(switching)
                         && match want case WantResolver => dnsCfg case WantHelper(cfg) => desCfg == Some(cfg) case WantTunnel(gw) => tunCfg == Some(gw)
      ensures begun ==> prior == match want case WantResolver => dns case WantHelper(_) => des case WantTunnel(_) => tun
    {
      prior := None;
      if !CurrentSession(sess) || switching {
        return false, None;
      }
      match want {
        case WantResolver =>
          if !dnsCfg { return false, None; }
          prior := dns;
        case WantHelper(cfg) =>
          if desCfg != Some(cfg) { return false, None; }
          prior := des;
        case WantTunnel(gw) =>
          if tunCfg != Some(gw) { return false, None; }
          prior := tun;
      }
      switching := true;
      begun := true;
    }

    /** The last region of recoverComponent: a session that is no longer wanted is handed back to be closed. */
    method FinishRepair(sess: nat, want: Want, next: Option<Handle>, failed: bool) returns (discard: Option<Handle>)
      requires Valid() && (failed ==> next.None?) && MadeFor(want, next, this.next)
      requires sess == sessGen && !want.WantResolver? ==> layer == Selective
      modifies this`switching, this`dns, this`des, this`tun
      ensures Valid()
      ensures !Current(old(View()), sess) ==> View() == old(View()) && discard == next
      ensures Current(old(View()), sess) && next.None? ==> discard.None? && View() == old(View()).(switching := false)
      ensures Current(old(View()), sess) && next.Some? ==> discard.None? && View() == Adopted(old(View()).(switching := false), want, next.value)
      ensures sess == sessGen && protection && (state == Active || state == Degraded) && next.Some? ==>
                && dns == (if want.WantResolver? then next else old(dns)) && des == (if want.WantHelper? then next else old(des))
                && tun == (if want.WantTunnel? then next else old(tun)) && !switching
    {
      if !CurrentSession(sess) {
        return next;
      }
      switching := false;
      if !failed && next.Some? {
        Adopt(want, next);
      }
      return None;
    }

    method Adopt(want: Want, next: Option<Handle>)
      requires Valid() && protection && next.Some? && MadeFor(want, next, this.next) && (!want.WantResolver? ==> layer == Selective)
      modifies this`dns, this`des, this`tun
      ensures Valid() && View() == Adopted(old(View()), want, next.value)
    {
      match want
      case WantResolver => dns := next;
      case WantHelper(_) => des := next;
      case WantTunnel(_) => tun := next;
    }

    // ------------------------------------------------------------------------ strategy swap

    /** The first region of a swap: one scan at a time, on a complete selective stack that nothing is switching. */
    method BeginSwap(sess: nat) returns (after: Option<Task>)
      requires Valid()
      modifies this`scan, this`next
      ensures Valid()
      ensures after.Some? <==> && sess == sessGen && protection && (state == Active || state == Degraded) && !switching && layer == Selective
                               && old(scan).None? && desCfg.Some? && des.Some? && tun.Some?
      ensures after.None? ==> View() == old(View())
      ensures after.Some? ==> SwapStep(Solo(old(View()), None), SwapBegin(0, sess), Solo(View(), after))
    {
      if !CurrentSession(sess) || switching || layer != Selective || scan.Some? || desCfg.None? || des.None? || tun.None? {
        return None;
      }
      after := Some(Scanning(sess, des.value, tun.value, desCfg.value, next));
      scan, next := Some(next), next + 1;
    }

    /** After the scan: close the old helper only if the stack is still the one that was scanned for. */
    method DecideSwap(task: Task, result: Option<Strategy>, closeFails: bool) returns (after: Option<Task>)
      requires Valid() && task.Scanning?
      modifies this`scan, this`des, this`switching, this`open, this`trace
      ensures Valid() && DecideStep(Solo(old(View()), Some(task)), 0, result, closeFails, Solo(View(), after))
    {
      after := None;
      if !CurrentSession(task.sess) || scan != Some(task.token) {
        return;
      }
      if des != Some(task.original) || tun != Some(task.dataplane) || switching || layer != Selective || result.None? {
        scan := None;
        return;
      }
      CloseOld(task, closeFails);
      if !closeFails {
        after := Some(Verifying(task.sess, task.dataplane, task.cfg, task.cfg.(strategy := result.value)));
      }
    }

    method CloseOld(task: Task, closeFails: bool)
      requires Valid() && task.Scanning? && protection
      modifies this`des, this`switching, this`open, this`trace
      ensures Valid()
      ensures View() == if closeFails then Closed(old(View()), Some(task.original)) else Closed(old(View()), Some(task.original)).(des := None, switching := true)
    {
      Close(task.original);
      if !closeFails {
        switching := true;
        des := None;
      }
    }

    /** After verification: adopt helper, configuration and store together, or close the trial helper. */
    method CommitSwap(task: Task) returns (after: Option<Task>)
      requires Valid() && task.Verified? && (task.verdict.up ==> task.next.Some?)
      requires MadeFor(WantHelper(task.winner), task.next, next) && (task.sess == sessGen ==> layer == Selective)
      modifies this`des, this`desCfg, this`saved, this`switching, this`scan, this`open, this`trace
      ensures Valid() && CommitStep(Solo(old(View()), Some(task)), 0, Solo(View(), after))
    {
      if !CurrentSession(task.sess) || tun != Some(task.dataplane) {
        switching := false;
        return Some(Discard(task.next));
      }
      var verified := VerifyHelper(task.next, task.verdict);
      if verified {
        AdoptWinner(task.next, task.winner);
        return None;
      }
      CloseIf(task.next);
      return Some(Restoring(task.sess, task.dataplane, task.cfg));
    }

    method AdoptWinner(h: Option<Handle>, winner: Config)
      requires Valid() && protection && layer == Selective && MadeFor(WantHelper(winner), h, next)
      modifies this`des, this`desCfg, this`saved, this`switching, this`scan
      ensures Valid()
      ensures View() == old(View()).(des := h, desCfg := Some(winner), saved := Remembered(old(View()), winner.strategy), switching := false, scan := None)
    {
      Remember(winner.strategy);
      EndWork();
      des, desCfg := h, Some(winner);
    }

    method EndWork()
      requires Valid()
      modifies this`switching, this`scan
      ensures Valid() && View() == old(View()).(switching := false, scan := None)
    {
      switching, scan := false, None;
    }

    method Remember(s: Strategy)
      requires Valid()
      modifies this`saved
      ensures Valid() && View() == old(View()).(saved := Remembered(old(View()), s))
    {
      if storeOpen {
        Put(s);
      }
    }

    method CloseIf(o: Option<Handle>)
      requires Valid()
      modifies this`open, this`trace
      ensures Valid() && View() == Closed(old(View()), o)
    {
      if o.Some? {
        Close(o.value);
      }
    }

    /** StrategyStore.Put of the strategy without its wrapper; an empty one is refused. */
    method Put(s: Strategy)
      requires storeOpen
      modifies this`saved
      ensures saved == Remembered(old(View()), s)
    {
      var kept := StrategyForCache(s);
      if kept.id == "" || |kept.args| == 0 {
        return;
      }
      saved := saved[scope := kept];
    }

    /** After a failed verification: the old configuration runs again, or waits for recovery. */
    method EndSwap(task: Task) returns (after: Option<Task>)
      requires Valid() && task.Restored? && MadeFor(WantHelper(task.cfg), task.next, next) && (task.sess == sessGen ==> layer == Selective)
      modifies this`des, this`switching, this`scan
      ensures Valid() && EndStep(Solo(old(View()), Some(task)), 0, Solo(View(), after))
    {
      if !CurrentSession(task.sess) || tun != Some(task.dataplane) {
        switching := false;
        return Some(Discard(task.next));
      }
      des, switching, scan := task.next, false, None;
      return None;
    }

    // ---------------------------------------------------------------- gateway and TCP layer

    /** One attempt of rebuildGatewayLocked: only a gateway that is up and attached is kept. */
    method TryGateway(cfg: Gateway, boot: Boot, attaches: bool) returns (ok: bool)
      requires Fresh() && tun.None?
      modifies this`tun, this`tunCfg, this`open, this`next, this`trace
      ensures Fresh() && old(next) <= next && ok == (boot == Up && attaches)
      ensures !ok ==> tun.None? && tunCfg == old(tunCfg) && open == old(open)
      ensures ok ==> tun.Some? && tun.value.Tunnel? && tun.value.gw == cfg && old(next) <= tun.value.id < next
      ensures ok ==> tunCfg == Some(cfg) && open == old(open) + Held(tun)
    {
      if boot == Absent {
        return false;
      }
      var h := OpenTunnel(cfg);
      if boot == Broken || !attaches {
        Close(h);
        return false;
      }
      tun, tunCfg := Some(h), Some(cfg);
      return true;
    }

    method ReplaceGateway(cfg: Gateway, first: Boot, attachesFirst: bool, second: Boot, attachesSecond: bool) returns (ok: bool)
      requires Fresh()
      modifies this`tun, this`tunCfg, this`open, this`next, this`trace
      ensures Fresh() && old(next) <= next && open == old(open) - Held(old(tun)) + Held(tun)
      ensures tun.Some? ==> tun.value.Tunnel? && tunCfg == Some(tun.value.gw) && old(next) <= tun.value.id < next
      ensures ok ==> tun.Some? && tunCfg == Some(cfg)
      ensures !ok ==> tunCfg == old(tunCfg)
      ensures ok <==> first == Up && attachesFirst
      ensures !ok ==> (tun.Some? <==> old(tunCfg).Some? && second == Up && attachesSecond)
    {
      var previous := tunCfg;
      if tun.Some? {
        Close(tun.value);
        tun := None;
      }
      ok := TryGateway(cfg, first, attachesFirst);
      if !ok && previous.Some? {
        var _ := TryGateway(previous.value, second, attachesSecond);
      }
    }

    /** rebuildGatewayLocked: the new configuration or, failing that, one attempt at the previous one. */
    method RebuildGateway(cfg: Gateway, first: Boot, attachesFirst: bool, second: Boot, attachesSecond: bool) returns (ok: bool)
      requires Valid() && protection && layer == Selective
      modifies this`tun, this`tunCfg, this`switching, this`open, this`next, this`trace
      ensures Valid() && Rebuilt(old(View()), cfg, ok, View())
      ensures ok <==> first == Up && attachesFirst
      ensures !ok ==> (tun.Some? <==> old(tunCfg).Some? && second == Up && attachesSecond)
    {
      ghost var c := View();
      switching := true;
      ok := ReplaceGateway(cfg, first, attachesFirst, second, attachesSecond);
      switching := false;
      ShowRebuilt(c, cfg, ok);
      RebuiltQuiet(c, cfg, ok, View());
    }

    /** The engine as it is now is what rebuilding the gateway makes of c. */
    lemma ShowRebuilt(c: Core, cfg: Gateway, ok: bool)
      requires lifeGen == c.lifeGen && sessGen == c.sessGen && state == c.state && protection == c.protection && layer == c.layer
      requires job == c.job && cap == c.cap && dns == c.dns && des == c.des && desCfg == c.desCfg && scan == c.scan && dnsCfg == c.dnsCfg
      requires safe == c.safe && scope == c.scope && storeOpen == c.storeOpen && saved == c.saved && c.next <= next && !switching
      requires open == c.open - Held(c.tun) + Held(tun)
      requires tun.Some? ==> tun.value.Tunnel? && tunCfg == Some(tun.value.gw) && c.next <= tun.value.id < next
      requires if ok then tun.Some? && tunCfg == Some(cfg) else tunCfg == c.tunCfg
      ensures Rebuilt(c, cfg, ok, View())
    {
    }

    /** The region of escalateGroupSession that replaces the gateway, only if it is still the one that was escalated from. */
    method EscalateRegion(sess: nat, dataplane: Handle, cfg: Gateway, first: Boot, attachesFirst: bool, second: Boot, attachesSecond: bool)
      returns (ok: bool)
      requires Valid() && (tun == Some(dataplane) && sess == sessGen ==> layer == Selective)
      modifies this`tun, this`tunCfg, this`switching, this`open, this`next, this`trace
      ensures Valid()
      ensures if sess == sessGen && protection && (state == Active || state == Degraded) && old(tun) == Some(dataplane)
              then Rebuilt(old(View()), cfg, ok, View()) && (ok <==> first == Up && attachesFirst)
              else !ok && View() == old(View())
    {
      if !CurrentSession(sess) || tun != Some(dataplane) {
        return false;
      }
      ok := RebuildGateway(cfg, first, attachesFirst, second, attachesSecond);
    }

    method RaiseLayer(p: LayerPlan) returns (up: bool)
      requires NoLive() && Fresh() && Registered()
      modifies this`des, this`tun, this`desCfg, this`tunCfg, this`open, this`next, this`trace, this`hooks, this`layerCleanup,
               this`layer, this`switching
      ensures Fresh() && Registered() && old(next) <= next && !switching && (layer == Selective ==> layerCleanup)
      ensures up == ComesUp(p) && (up ==> AsPlanned(p))
      ensures up ==> TransportUp(old(next)) && layer == Selective && open == old(open) + Held(des) + Held(tun)
      ensures !up ==> NoLive() && layer == Fallback && open == old(open)
    {
      switching := true;
      up := StartLayer1(p);
      switching := false;
      if !up {
        FallBack();
      }
    }

    /** The second region of checkDNSLayerLocked, with the decision of the measurement. */
    method ApplyLayer(sess: nat, wanted: bool, p: LayerPlan)
      requires Valid()
      modifies this`des, this`tun, this`desCfg, this`tunCfg, this`open, this`next, this`trace, this`hooks, this`layerCleanup,
               this`layer, this`switching
      ensures Valid()
      ensures if Current(old(View()), sess) && old(layer) != Selective then Layered(old(View()), View()) else View() == old(View())
      ensures if Current(old(View()), sess) && old(layer) != Selective && wanted
              then layer == (if p.helper == Up && p.gateway == Up && p.attaches then Selective else Fallback) && (layer == Selective ==> AsPlanned(p))
              else View() == old(View())
    {
      if !CurrentSession(sess) || layer == Selective || !wanted {
        return;
      }
      ApplyNow(p);
    }

    method ApplyNow(p: LayerPlan)
      requires Valid() && protection && layer != Selective
      modifies this`des, this`tun, this`desCfg, this`tunCfg, this`open, this`next, this`trace, this`hooks, this`layerCleanup,
               this`layer, this`switching
      ensures Valid() && Layered(old(View()), View())
      ensures layer == (if ComesUp(p) then Selective else Fallback) && (layer == Selective ==> AsPlanned(p))
    {
      ghost var c := View();
      LayeredQuiet(c);
      var up := RaiseLayer(p);
      ShowLayered(c, up);
    }

    /** The engine as it is now is what raising a layer makes of c. */
    lemma ShowLayered(c: Core, up: bool)
      requires NoTransport(c) && lifeGen == c.lifeGen && sessGen == c.sessGen && state == c.state && protection == c.protection
      requires job == c.job && cap == c.cap && dns == c.dns && scan == c.scan && dnsCfg == c.dnsCfg && safe == c.safe
      requires scope == c.scope && storeOpen == c.storeOpen && saved == c.saved && c.next <= next && !switching
      requires up ==> TransportUp(c.next) && layer == Selective && open == c.open + Held(des) + Held(tun)
      requires !up ==> NoLive() && layer == Fallback && open == c.open
      ensures Layered(c, View())
    {
      if up {
        Raised(c, View());
      } else {
        assert View() == c.(layer := Fallback, switching := false, next := next);
      }
    }
  }
}
