/**
  The protection engine of offveil-core/internal/engine: the state guarded by its lock and what each
  region held under that lock does to it. Starting a child session may fail in any way the program
  provides for; a session is open from its start until the first Close called on it.
 */
module EngineCore {
  import opened Options
  import opened Chain

  /** Configuration of the desync helper: the strategy it runs and the address it binds. */
  datatype Config = Config(strategy: Strategy, connIP: string)

  /** Configuration of the gateway: its tunnel provider, if any, and the path of every group. */
  datatype Gateway = Gateway(provider: string, paths: map<string, string>)

  /** A started session, with the configuration it was started with. */
  datatype Handle =
    | Job(id: nat)
    | Capture(id: nat)
    | Resolver(id: nat)
    | Helper(id: nat, cfg: Config)
    | Tunnel(id: nat, gw: Gateway)

  datatype Phase = Stopped | Starting | Active | Degraded | Stopping

  datatype Layer = NoLayer | DnsOnly | Selective | Fallback

  /**
    `scope` names the network the policy has observed and keys the strategy store.
    `open` and `next` describe the world: the sessions not yet closed and the supply of names.
   */
  datatype Core = Core(
    lifeGen: nat, sessGen: nat, state: Phase, protection: bool,
    job: Option<Handle>, cap: Option<Handle>, dns: Option<Handle>, des: Option<Handle>, tun: Option<Handle>,
    layer: Layer, switching: bool, scan: Option<nat>,
    dnsCfg: bool, desCfg: Option<Config>, tunCfg: Option<Gateway>,
    safe: Strategy, scope: string, storeOpen: bool, saved: map<string, Strategy>,
    open: set<Handle>, next: nat)

  function Held(o: Option<Handle>): set<Handle> { if o.Some? then {o.value} else {} }

  /** The sessions the engine itself refers to. */
  function Owned(c: Core): set<Handle> {
    Held(c.job) + Held(c.cap) + Held(c.dns) + Held(c.des) + Held(c.tun)
  }

  predicate Running(p: Phase) { p == Active || p == Degraded }

  predicate Current(c: Core, gen: nat) { gen == c.sessGen && c.protection && Running(c.state) }

  // ------------------------------------------------------------- the lock-free invariant

  predicate Kinds(c: Core) {
    && (c.job.Some? ==> c.job.value.Job?) && (c.cap.Some? ==> c.cap.value.Capture?) && (c.dns.Some? ==> c.dns.value.Resolver?)
    && (c.des.Some? ==> c.des.value.Helper?) && (c.tun.Some? ==> c.tun.value.Tunnel?)
  }

  predicate NoHandles(c: Core) {
    c.job.None? && c.cap.None? && c.dns.None? && c.des.None? && c.tun.None?
  }

  predicate NoTransport(c: Core) {
    c.des.None? && c.tun.None? && c.desCfg.None? && c.tunCfg.None?
  }

  /**
    Whenever the lock is free: protection is on exactly in the active and degraded states, with the
    DNS layer up; otherwise the engine is stopped and holds nothing. Helper and gateway belong to
    the selective layer.
   */
  predicate Quiet(c: Core) {
    && Kinds(c)
    && (c.protection <==> Running(c.state))
    && (!c.protection ==> c.state == Stopped && NoHandles(c) && NoTransport(c) && !c.switching && c.scan.None?)
    && (c.protection ==> c.job.Some? && c.cap.Some? && c.dns.Some? && c.dnsCfg && c.layer != NoLayer)
    && (c.protection && c.layer != Selective ==> NoTransport(c))
    && (c.protection && c.layer == Selective ==> c.desCfg.Some? && c.tunCfg.Some?)
  }

  // ------------------------------------------------------------------------- the regions

  function CancelSession(c: Core): Core {
    c.(sessGen := c.sessGen + 1, switching := false, scan := None)
  }

  function TornDown(c: Core): Core {
    c.(state := Stopped, protection := false, job := None, cap := None, dns := None, des := None, tun := None,
       desCfg := None, tunCfg := None, open := c.open - Owned(c))
  }

  /** stopLocked: an engine that is already stopped only reports that. */
  function StopFn(c: Core): Core {
    if c.state == Stopped then c else TornDown(CancelSession(c))
  }

  /** CrashCleanup tears down unconditionally and always ends the session. */
  function CrashFn(c: Core): Core { TornDown(CancelSession(c)) }

  function Bumped(c: Core): Core { c.(lifeGen := c.lifeGen + 1) }

  /** Sessions opened on the way from c to d. */
  predicate Newer(c: Core, d: Core, hs: set<Handle>) {
    c.next <= d.next && forall h :: h in hs ==> c.next <= h.id < d.next
  }

  /** The helper of a new layer runs the remembered strategy, or the built-in one, wrapped. */
  predicate Picks(safe: Strategy, storeOpen: bool, saved: Option<Strategy>, s: Strategy) {
    SameRun(s, Wrapped(safe)) || (storeOpen && saved.Some? && SameRun(s, Wrapped(saved.value)))
  }

  /** What the store remembers for the present network. */
  function Known(c: Core): Option<Strategy> { if c.scope in c.saved then Some(c.saved[c.scope]) else None }

  predicate Chosen(c: Core, cfg: Config) { Picks(c.safe, c.storeOpen, Known(c), cfg.strategy) }

  /** A selective layer came up: one helper and one gateway, both new and running their configurations. */
  predicate LayerUp(c: Core, d: Core) {
    && d.layer == Selective && d.des.Some? && d.tun.Some? && d.des.value.Helper? && d.tun.value.Tunnel?
    && d.desCfg == Some(d.des.value.cfg) && d.tunCfg == Some(d.tun.value.gw)
    && Newer(c, d, Held(d.des) + Held(d.tun)) && d.des.value.id != d.tun.value.id
  }

  /** startLocked succeeded: exactly the sessions the engine now holds were opened and left open. */
  predicate Started(c: Core, d: Core) {
    && c.state == Stopped
    && d == c.(sessGen := c.sessGen + 1, state := d.state, protection := true, job := d.job, cap := d.cap, dns := d.dns,
               des := d.des, tun := d.tun, layer := d.layer, switching := false, scan := None, dnsCfg := true,
               desCfg := d.desCfg, tunCfg := d.tunCfg, scope := d.scope, storeOpen := d.storeOpen, open := c.open + Owned(d), next := d.next)
    && Running(d.state) && Kinds(d) && d.job.Some? && d.cap.Some? && d.dns.Some? && Newer(c, d, Owned(d))
    && (c.storeOpen ==> d.storeOpen)
    && (if d.layer == Selective then LayerUp(c, d) && Chosen(d, d.desCfg.value)
        else d.layer != NoLayer && NoTransport(d))
  }

  /** startLocked failed at some stage: whatever had been opened is closed again and nothing is held. */
  predicate StartFailed(c: Core, d: Core) {
    && c.state == Stopped && c.next <= d.next && (c.storeOpen ==> d.storeOpen)
    && d == c.(sessGen := c.sessGen + 2, protection := false, job := None, cap := None, dns := None, des := None, tun := None,
               layer := NoLayer, switching := false, scan := None,
               dnsCfg := false, desCfg := None, tunCfg := None, scope := d.scope, storeOpen := d.storeOpen, next := d.next)
  }

  predicate StartRel(c: Core, okMode: bool, d: Core) {
    if !okMode || c.state != Stopped then d == c else Started(c, d) || StartFailed(c, d)
  }

  /** softRebindLocked returned true: at most the helper was replaced, by one on the new address. */
  predicate Rebound(c: Core, d: Core) {
    if c.layer != Selective then d == c
    else
      && c.desCfg.Some? && c.des.Some?
      && (|| d == c
          || (&& d.desCfg.Some? && d.desCfg.value.strategy == c.desCfg.value.strategy && c.next <= d.next
              && d == c.(des := d.des, desCfg := d.desCfg, open := c.open - Held(c.des) + Held(d.des), next := d.next)
              && (d.des.Some? ==> d.des.value.Helper? && d.des.value.cfg == d.desCfg.value && c.next <= d.des.value.id < d.next)))
  }

  /** The gateway runs cfg, started anew since c. */
  predicate Gated(c: Core, d: Core, cfg: Gateway) {
    d.tun.Some? && d.tun.value.Tunnel? && d.tun.value.gw == cfg && c.next <= d.tun.value.id < d.next
  }

  /** rebuildGatewayLocked: the new configuration, or else the previous one, running or not. */
  predicate Rebuilt(c: Core, next: Gateway, ok: bool, d: Core) {
    && c.next <= d.next
    && d == c.(tun := d.tun, tunCfg := d.tunCfg, switching := false, open := c.open - Held(c.tun) + Held(d.tun), next := d.next)
    && (if ok then d.tunCfg == Some(next) && Gated(c, d, next)
        else d.tunCfg == c.tunCfg && (d.tun.None? || (c.tunCfg.Some? && Gated(c, d, c.tunCfg.value))))
  }

  /** The second half of checkDNSLayerLocked: nothing, the selective layer, or the DNS-only fallback. */
  predicate Layered(c: Core, d: Core) {
    && c.next <= d.next
    && (|| d == c
        || (&& d == c.(des := d.des, tun := d.tun, desCfg := d.desCfg, tunCfg := d.tunCfg, layer := Selective, switching := false,
                       open := c.open + Held(d.des) + Held(d.tun), next := d.next)
            && LayerUp(c, d) && Chosen(c, d.desCfg.value))
        || d == c.(layer := Fallback, switching := false, next := d.next))
  }

  predicate StatusOnly(c: Core, d: Core) {
    d == c.(state := d.state) && (if c.protection then Running(d.state) else d.state == c.state)
  }
}
