# Offveil core: a verified model

Offveil is a protection daemon: it steers DNS through DNS over HTTPS, runs a local desync helper and a
selective gateway for filtered traffic, and undoes everything when protection stops. This project models the
parts of `offveil-core` whose correctness does not show in any single function and proves what they promise.

- **Engine** (`EngineCore`, `EngineRuns`, `EngineSafety`, `EngineOwnership`, `EngineHandover`, `EngineRepairs`,
  `EngineLosses`, `EngineOverlap`, `EngineSwapOverlap`, `EngineVerdict`, `EngineSwap`, `Engine`). One lock guards the engine; background work drops it, does slow work and takes it again. Every
  region held under the lock, and every start or close outside it, is one step of a step system, and public
  calls, self-heals, component repairs, strategy swaps, escalations and layer changes interleave in any way.
  The class `Engine.Engine` is the imperative form of the regions: startup stage by stage, teardown through the
  last-in-first-out registry. Its methods are proved to be exactly the steps the runs are made of.
- **DoH query table** (`DohTtl`, `DohCache`, `DohClient`, `DohAnswers`). Identical questions share reference-counted flights, a
  generation counter separates networks, answers are aged and the cache is bounded. `DohCache` is the step
  system over all interleavings, `DohClient` the heap objects proved against it, `DohTtl` what a hit means.
- **System DNS undo record** (`NetServices`, `SystemDns`). A write-ahead record over a platform where every call may fail and the
  process may die between any two writes.
- **Selective gateway** (`Gateway`, `GatewayRouting`, `Selectors`, `SelectorRaces`). A compiler from group policy to a first-match rule list, and the
  runtime selector switches that must keep TCP and UDP of a group together.
- **Desync strategies** (`Chain`, `ChainExact`, `ChainSpecs`, `ScanTrial`, `ScanPool`). An argument rewrite with its inverse, the verdict of one
  trial and the bounded concurrent scan.
- **Address filtering, answers and quoting** (`NetAddr`, `Exclude`, `ExcludeExact`, `Poison`, `Quoting`). Prefix arithmetic over
  all addresses, the in-place answer filter, and printers whose output parses back.

Probes, child processes, upstream DNS, file writes, timers and clocks are outcomes chosen by the surroundings:
event parameters in the step systems, method parameters or nondeterministic choices in the imperative parts. For
system DNS they are an arbitrary sequence that says of each platform call whether it works, so that the contracts
can say what comes of every course of calls.
Starting a resolver or a capture session returns no session when it fails; a helper or gateway start may also
return a session that is not up, as the code provides for. A session counts as open until the first `Close`
called on it. A packed question determines the question.

Where a promise does not hold as stated, the code is modelled as it is, an input or run that shows it is given,
and the exact condition is proved:

- `Exclude.CoverageSafeIff`: an allowlist output covers an excluded address if and only if it is an IPv6 prefix
  shorter than 96 bits around the IPv4-mapped block (`Exclude.MappedCounterexample`).
- `DohTtl.HitExactIff`: a hit carries the right TTLs if and only if the caller's clock lags the store by less
  than a second; at one second the unsigned age wraps (`DohTtl.LaggingClock`).
- `ScanTrial.RequiredGuaranteedIff`: a winning scan guarantees the required hosts if and only if no required host
  is also a verify host, or the quorum is every host (`ScanTrial.MissedRequired`).
- `Chain.RestartIff` and `Chain.WrapRoundTrip`, for every strategy: caching and wrapping again gives the same run if
  and only if, for a wrapped strategy, its marker stands between the global flags and nonempty groups without
  globals and its identifier carries the suffix once; and for an unwrapped one, no value-taking flag dangles or
  there is nothing to wrap. `ChainSpecs.CandidateRoundTrip` says the same of a ruleset specification, without the
  options put in front of it. `ChainSpecs.AcceptedButDangling`, `ChainSpecs.MisplacedExample` and
  `ChainSpecs.SuffixedTwice` are specifications the validator lets in and that fail.
- `Selectors.RunCoupledIff`: over any series of switches a group stays together if and only if, for each of its two
  selectors, the last request that moved it left it on the recorded side. `Selectors.SplitPair` is a run after
  which the shortcut for an unchanged path reports success on a split pair. `SelectorRaces.RaceIff` is the exact
  condition when calls on the group overlap, and `SelectorRaces.RaceSplits` two calls that split it although the
  failing one takes back what it moved.
- `SystemDns.System.FlushLeftover`: clearing leftovers without a record, with calls that succeed, keeps the user's
  settings if and only if no steered service had only the stub address; `SystemDns.OwnResolverLost` is the restore
  that loses such a resolver, and `SystemDns.AnyRun` shows that nothing else is ever lost.
- `EngineLosses.RunCoveredIff`: in any run, every open session has an owner if and only if each handle that the last
  region of a repair or a swap assigned over has been closed. `EngineLosses.StepLosesIff` is the condition at one
  step, and `EngineLosses.AdoptionLosesIff` adds that a repair loses nothing when the handle in place is none or the
  one it found when it began. `EngineOverlap.OverlapLoses` is a run in which a repair loses the helper of a heal;
  `EngineSwapOverlap.CommitLoses` and `EngineSwapOverlap.RollbackLoses` are runs in which a swap loses the helper of a
  repair, by a commit and by a rollback.

`dafny verify dfyconfig.toml` checks the whole project.

## Model

| member | source | states |
|---|---|---|
| `EngineRuns.StopKeeps` | offveil-core/internal/engine/engine.go:289-392 | stopping and crash cleanup turn protection off, give up every handle and keep the lock-free invariant |
| `EngineRuns.StartKeeps` | offveil-core/internal/engine/startup.go:27-218 | every outcome of a start (refused, failed at any stage, succeeded) keeps the lock-free invariant and the order of generations |
| `EngineRuns.StepInv` | offveil-core/internal/engine/session.go:9-39 | every step of any work keeps the lock-free invariant and every task's invariant, and generations never go back |
| `EngineSafety.RunQuiet` | offveil-core/internal/engine/engine.go:289-392 | in every reachable state protection is on exactly when the state is active or degraded; otherwise the engine is stopped and holds no handle |
| `EngineSafety.SelectiveAbsorbing` | offveil-core/internal/engine/network_health.go:251-294 | within one session the layer never leaves selective once reached, over every run |
| `EngineSafety.PublicOff` | offveil-core/internal/engine/engine.go:281-392 | a public stop, repair or crash cleanup leaves protection off and no pending heal of the new lifecycle generation |
| `EngineSafety.OffStep` | offveil-core/internal/engine/heal.go:78-187 | no step except a public start can turn protection on once it was turned off publicly |
| `EngineSafety.StaysOff` | offveil-core/internal/engine/heal.go:78-187 | after a public stop, repair or crash cleanup protection stays off up to the next public start, whatever heals and repairs were pending or half done |
| `EngineSafety.HealHistory` | offveil-core/internal/engine/heal.go:153-172 | a heal waiting to restart did stop the engine itself, in its own lifecycle generation, at an earlier step |
| `EngineSafety.HealRestartsOwnStop` | offveil-core/internal/engine/heal.go:153-173 | a heal that turns protection on had itself stopped it, in the same lifecycle generation, with no other start or stop in between |
| `EngineSafety.OnlyStartsTurnOn` | offveil-core/internal/engine/engine.go:272-278 | protection comes on only at a public start or at a heal's restart |
| `EngineOwnership.AdoptedLone` | offveil-core/internal/engine/component_recovery.go:138-162 | the handle a repair replaces was closed before, so adopting the new one loses nothing |
| `EngineOwnership.LoneStep` | offveil-core/internal/engine/component_recovery.go:53-137 | every step keeps ownership: open sessions are held by the engine or by one task, and the helper runs its configuration |
| `EngineOwnership.RunLone` | offveil-core/internal/engine/component_recovery.go:14-184 | in every run in which no component is replaced while other work of the session is busy with that same component, every open session is referred to by the engine or by a task that will adopt or close it, and the helper runs its configured strategy |
| `EngineOwnership.NothingLeftOpen` | offveil-core/internal/engine/component_recovery.go:113-137 | in such a run, with protection off and no session in the hands of a task, every session ever started is closed |
| `EngineHandover.ClosedForGood` | offveil-core/internal/engine/component_recovery.go:113-137 | a closed session is never open again in the rest of the run |
| `EngineHandover.StepHands` | offveil-core/internal/engine/component_recovery.go:53-163 | in every step what the engine and the moving work then hold was theirs before or was just opened, and a new session holds nothing from before |
| `EngineRepairs.StaleRepairHarmless` | offveil-core/internal/engine/component_recovery.go:73-137 | in every run, no step of a repair whose session has ended (closing the old handle, starting, failing, finishing, discarding) changes anything in the engine or closes anything it holds |
| `EngineRepairs.RunPriors` | offveil-core/internal/engine/component_recovery.go:55-112 | in every run, the handle a repair found when it began is in no hands but the engine's, leaves those when its session ends, and is closed and stays closed once the repair has closed it |
| `EngineRepairs.AdoptedOrClosed` | offveil-core/internal/engine/component_recovery.go:73-163 | in every run, what a repair started is adopted when the repair ends or is closed then and never open again |
| `EngineHandover.DiscardedForGood` | offveil-core/internal/engine/component_recovery.go:125-137 | a session handed to be discarded is closed by the next step of its work and is never open again |
| `EngineHandover.StaleSwapHarmless` | offveil-core/internal/engine/strategy_recovery.go:122-160 | in every run, a swap whose session has ended leaves every handle, the configuration and the store alone, and the helper it started is closed for good |
| `EngineHandover.StopMakesStale` | offveil-core/internal/engine/session.go:14-39 | work of a session is stale ever after a public stop, repair or crash cleanup, in every run |
| `EngineHandover.RunDisjoint` | offveil-core/internal/engine/component_recovery.go:55-76 | in every run a session is held by the engine or by one task, never by two |
| `EngineLosses.StepAccounts` | offveil-core/internal/engine/strategy_recovery.go:122-171 | no step other than the last region of a repair or a swap leaves an open session without an owner, and those only the handle they assign over |
| `EngineLosses.LostIff` | offveil-core/internal/engine/component_recovery.go:138-162 | in any state of any run, a session is open and unowned if and only if some step assigned over its handle and no step has closed it |
| `EngineLosses.RunCoveredIff` | offveil-core/internal/engine/strategy_recovery.go:122-171 | in any state of any run, whatever overlaps, every open session has an owner if and only if each handle assigned over so far has been closed |
| `EngineLosses.LeftOpenIff` | offveil-core/internal/engine/engine.go:289-322 | in any run, with protection off and no session in the hands of a task, every session ever started is closed if and only if each handle assigned over was closed |
| `EngineLosses.StepLosesIff` | offveil-core/internal/engine/strategy_recovery.go:122-171 | with every open session owned before it, a step of any kind loses one if and only if it assigns over a handle that no step has closed |
| `EngineLosses.AdoptionLosesIff` | offveil-core/internal/engine/component_recovery.go:138-162 | in every run, adopting a repaired component loses nothing when the handle in place is none or the one the repair began with, and otherwise loses a session if and only if no step of the run closed the handle in place |
| `EngineLosses.LossNeedsOverlap` | offveil-core/internal/engine/component_recovery.go:53-162 | in every run, a repair whose adoption loses a session had other work replace the same component between its begin and its end |
| `EngineLosses.SwapLossNeedsOverlap` | offveil-core/internal/engine/strategy_recovery.go:105-171 | in every run, a swap that loses a session had another task put the lost helper in place after the swap took its old helper down |
| `EngineOverlap.OverlapLoses` | offveil-core/internal/engine/heal.go:192-237 | a run of seven steps in which a heal rebinds the helper during a repair and the rebound helper is left open with nobody to close it |
| `EngineSwapOverlap.CommitLoses` | offveil-core/internal/engine/strategy_recovery.go:131-132 | a run in which every repair is safe and every state in order until a confirmed swap assigns over the helper a repair had put in place |
| `EngineSwapOverlap.RollbackLoses` | offveil-core/internal/engine/strategy_recovery.go:151-171 | a run in which a failed swap whose restart comes up empty puts nothing in the place of the helper of a repair, which stays open |
| `EngineVerdict.HelperControlQuorum` | offveil-core/internal/engine/strategy_recovery.go:15-30 | true exactly when two different control hosts opened |
| `EngineVerdict.VerifyHelper` | offveil-core/internal/engine/strategy_recovery.go:116-121 | a strategy is verified exactly when the helper came up, it and the gateway opened the target, and two different controls opened |
| `EngineSwap.SavedOnlyByCommit` | offveil-core/internal/engine/strategy_recovery.go:131-144 | the strategy store changes only in a commit of the current session with the same gateway, after helper and gateway opened the target and two controls opened, together with helper and configuration |
| `EngineSwap.SwapHistory` | offveil-core/internal/engine/strategy_recovery.go:84-115 | every strategy under verification was accepted by the scan of its own task, on the unchanged stack |
| `EngineSwap.SavedWasConfirmed` | offveil-core/internal/engine/strategy_recovery.go:105-144 | over every run, whatever enters the store was accepted by a scan, came up as a helper, opened the target directly and through the gateway and opened two controls, in the same session |
| `EngineSwap.StrategyOnlyByCommit` | offveil-core/internal/engine/strategy_recovery.go:131-144 | over every run, within a session the strategy of the helper changes only to a winner that was confirmed in this way |
| `EngineSwap.DecideIff` | offveil-core/internal/engine/strategy_recovery.go:78-115 | over every run, after a scan the old helper goes down exactly when session, scan, helper, gateway and layer are the ones scanned for, no switch is under way and a strategy was found; otherwise nothing is closed |
| `EngineSwap.CommitIff` | offveil-core/internal/engine/strategy_recovery.go:122-150 | over every run, with session and gateway in place helper, configuration and store move to the winner exactly when all four checks passed; otherwise the trial helper is closed and the old configuration restored next, and a late swap only hands its helper over |
| `EngineSwap.EndIff` | offveil-core/internal/engine/strategy_recovery.go:151-171 | over every run, the rollback puts the helper on the old configuration, or none, in place exactly when session and gateway are; configuration and store stay |
| `EngineSwap.CommitOutcome` | offveil-core/internal/engine/strategy_recovery.go:122-150 | leaving verification, helper, configuration and store all moved to the winner or none did, and they move exactly when helper, target, controls and gateway all passed and session and gateway are the same |
| `EngineSwap.EndOutcome` | offveil-core/internal/engine/strategy_recovery.go:151-171 | after a failed verification the old configuration is in force and only it was restarted |
| `EngineSwap.SwapAllOrNothing` | offveil-core/internal/engine/strategy_recovery.go:105-171 | over every run in which nothing replaces a component under other work of the session, a swap ends with everything on the winner or everything on the old configuration |
| `EngineSwap.RestartRunsWinner` | offveil-core/internal/engine/layers.go:58-64 | over every run, from a commit to a later layer start on the same network without another commit for it: the helper runs the built-in strategy, or the winner the scan returned exactly when that is restartable |
| `Engine.Engine.constructor` | offveil-core/internal/engine/engine.go:197-215 | a new engine is the initial state of the runs |
| `Engine.FireAt` | offveil-core/internal/cleanup/registry.go:42-59 | running one more hook adds exactly its sessions to those closed, after the hooks registered later |
| `Engine.TeardownPlan` | offveil-core/internal/engine/startup.go:93-168 | the hooks of a running engine close exactly what it holds: gateway, helper, resolver, capture, job, in that order |
| `Engine.BootSets` | offveil-core/internal/engine/startup.go:68-87 | at every stage of startup the registered hooks cover exactly the sessions opened so far |
| `Engine.Engine.RunHooks` | offveil-core/internal/cleanup/registry.go:42-59 | the reverse loop closes the sessions of all hooks, last registered first |
| `Engine.Engine.TearDown` | offveil-core/internal/engine/engine.go:297-305 | running and clearing the registry closes what the engine holds, in the fixed order |
| `Engine.Engine.StopLayer1` | offveil-core/internal/engine/layers.go:146-158 | closes the gateway, then the helper, and forgets both configurations |
| `Engine.Engine.StartHelper` | offveil-core/internal/engine/layers.go:51-85 | a helper that is not up is closed; one that is up runs the remembered strategy if there is a usable one and else the built-in one, wrapped, on the given address |
| `Engine.Engine.StartGateway` | offveil-core/internal/engine/layers.go:113-131 | a gateway that does not come up or attach leaves neither gateway nor helper open |
| `Engine.Engine.StartLayer1` | offveil-core/internal/engine/layers.go:43-144 | helper and gateway come up on their configurations exactly when both start and the adapter attaches, otherwise neither stays open; the helper runs the remembered usable strategy or else the built-in one; one layer hook per session |
| `Engine.Engine.FallBack` | offveil-core/internal/engine/layers.go:160-165 | the fallback leaves no helper, gateway or configuration behind |
| `Engine.Engine.StopLocked` | offveil-core/internal/engine/engine.go:289-322 | is the stop step: the session ends, every held session is closed and forgotten; a stopped engine is unchanged |
| `Engine.Engine.Stop` | offveil-core/internal/engine/engine.go:281-287 | is the public stop step of the runs |
| `Engine.Engine.Repair` | offveil-core/internal/engine/engine.go:326-354 | is the public repair step: stopped, with the strategy store and the observed network forgotten |
| `Engine.Engine.CrashCleanup` | offveil-core/internal/engine/engine.go:357-392 | is the crash cleanup step from any state |
| `Engine.Engine.Fail` | offveil-core/internal/engine/startup.go:63-87 | a failure at any stage closes everything opened since the start and ends the session twice |
| `Engine.Engine.OpenStack` | offveil-core/internal/engine/startup.go:88-188 | job, capture and resolver come up in order, each with its hook registered |
| `Engine.Engine.ChooseLayer` | offveil-core/internal/engine/startup.go:198-205 | no filtering keeps DNS only; with filtering the TCP layer if it comes up, else DNS only as a fallback, unless the start was cancelled, which fails it |
| `Engine.Engine.StartLocked` | offveil-core/internal/engine/startup.go:27-218 | is the start step: refused, failed with nothing left open, or started with exactly the held sessions open; it succeeds exactly when job, capture and resolver come up and the layer does not fail under cancellation |
| `Engine.Engine.Start` | offveil-core/internal/engine/engine.go:272-278 | is the public start step of the runs; success, layer, state, network, store, address, gateway and strategy are spelled out for every course the startup can take |
| `Engine.Engine.HealStopRegion` | offveil-core/internal/engine/heal.go:129-162 | stops exactly when both generations and the session are still those of the heal |
| `Engine.Engine.HealRestartRegion` | offveil-core/internal/engine/heal.go:164-173 | starts exactly when nothing changed since the heal's own stop |
| `Engine.Engine.SoftRebind` | offveil-core/internal/engine/heal.go:192-237 | keeps the gateway and replaces at most the helper, keeping its strategy, by one on the new address; reports false, without any change, exactly when helper, configuration or interface is not the same |
| `Engine.Engine.BeginRepair` | offveil-core/internal/engine/component_recovery.go:16-72 | begins exactly for the current session with no switch in progress and a configuration to restart |
| `Engine.Engine.FinishRepair` | offveil-core/internal/engine/component_recovery.go:124-163 | a stale repair hands its session back and changes nothing; a current one is adopted into the right handle |
| `Engine.Engine.BeginSwap` | offveil-core/internal/engine/strategy_recovery.go:48-71 | begins exactly for the current session on a complete selective stack with no switch and no scan under way, and is the first step of a swap |
| `Engine.Engine.DecideSwap` | offveil-core/internal/engine/strategy_recovery.go:78-115 | is the decision step: the old helper is closed only for an accepted strategy on the unchanged stack |
| `Engine.Engine.CommitSwap` | offveil-core/internal/engine/strategy_recovery.go:116-150 | is the commit step, with the verdict computed from the probes: adopt all of helper, configuration and store, or close the trial helper |
| `Engine.Engine.EndSwap` | offveil-core/internal/engine/strategy_recovery.go:152-171 | is the rollback step: the helper restarted on the old configuration is put in place, or handed back if stale |
| `Engine.Engine.RebuildGateway` | offveil-core/internal/engine/groups.go:213-251 | the gateway runs the new configuration exactly when that starts and attaches; else the previous configuration is kept, running exactly when its one attempt works |
| `Engine.Engine.EscalateRegion` | offveil-core/internal/engine/groups.go:154-182 | the gateway is rebuilt exactly when the session and the gateway are those the escalation began with; otherwise nothing changes |
| `Engine.Engine.ApplyLayer` | offveil-core/internal/engine/network_health.go:269-294 | changes nothing for a stale session, a selective layer or no need; otherwise the layer is selective exactly when helper and gateway come up, and a fallback if not |
| `DohTtl.LeastTtlLoop` | offveil-core/internal/dns/doh_cache.go:226-237 | the loop computes the least TTL with OPT records left out |
| `DohTtl.AnyPoison` | offveil-core/internal/dns/doh_cache.go:216-225 | finds a fingerprint exactly when the answer section has one |
| `DohTtl.CacheableTtlLoop` | offveil-core/internal/dns/doh_cache.go:206-238 | computes the cache time of the specification for every message |
| `DohTtl.LeastTtlBounds` | offveil-core/internal/dns/doh_cache.go:226-237 | the result is at most every counted TTL and the cap, and is one of them |
| `DohTtl.CacheableBounds` | offveil-core/internal/dns/doh_cache.go:206-238 | a positive cache time is at most a minute and at most every TTL it covers, and the answer is clean and matches the question |
| `DohTtl.HitRefinesUpstream` | offveil-core/internal/dns/doh_cache.go:86-93 | a hit is what the upstream said, older by the HTTP age and the whole seconds stored, never clamped, at least one second left, under the caller's identifier |
| `DohTtl.HitExactIff` | offveil-core/internal/dns/doh_cache.go:84-93 | a hit loses the right number of seconds if and only if the caller's clock lags by less than a second |
| `DohTtl.LaggingClock` | offveil-core/internal/dns/doh_cache.go:84-93 | a one-record answer cacheable for sixty seconds and a clock one second behind: the record is served with no time left |
| `DohTtl.CopyRecords` | offveil-core/internal/dns/doh_cache.go:88-92 | a copy is new records with the same contents |
| `DohTtl.AgeRecords` | offveil-core/internal/dns/doh_cache.go:240-253 | ages the records of a section in place, OPT untouched, never below zero |
| `DohTtl.ServeSection` | offveil-core/internal/dns/doh_cache.go:86-93 | what is served is new and aged, and the stored records are as before |
| `DohCache.RoomSize` | offveil-core/internal/dns/doh_cache.go:146-161 | making room keeps the cache within 256 entries |
| `DohCache.StepInv` | offveil-core/internal/dns/doh_cache.go:84-204 | every step keeps the table invariant: mapped flights are unfinished, current and wanted, waiter counts are the unreleased callers, entries and answers come from recorded replies |
| `DohCache.RunInv` | offveil-core/internal/dns/doh_cache.go:84-204 | the table invariant holds in every state of every interleaving |
| `DohCache.NetworkIsolation` | offveil-core/internal/dns/doh_cache.go:179-193 | a caller that enters after a reset never gets, by hit or by joining, an answer of a flight that existed at the reset |
| `DohCache.SharedWork` | offveil-core/internal/dns/doh_cache.go:96-107 | callers waiting for the same question on the same network share one flight |
| `DohCache.NeverCancelledWhileWanted` | offveil-core/internal/dns/doh_cache.go:167-177 | without Close and timeouts no work is cancelled while a caller still wants it |
| `DohCache.StaysJoinable` | offveil-core/internal/dns/doh_cache.go:167-177 | a wanted flight stays joinable until it resolves or the network changes, whoever else is released |
| `DohCache.RoomKeeps` | offveil-core/internal/dns/doh_cache.go:146-160 | only expired entries and, at capacity, one with the nearest expiry are removed |
| `DohCache.OnlyNearestEvicted` | offveil-core/internal/dns/doh_cache.go:140-163 | storing an answer never overwrites a key, and an unexpired entry is lost only as the nearest to expiry of 256 |
| `DohCache.RunningIsMapped` | offveil-core/internal/dns/doh_cache.go:134-140 | a running flight of the current network is the one its key leads to, and its key is not cached |
| `DohCache.CachedAnswersRefine` | offveil-core/internal/dns/doh_cache.go:86-93 | every answer from the cache is the upstream's answer to its flight, exactly aged, under the caller's identifier and free of fingerprints |
| `DohAnswers.FlightAnswersExact` | offveil-core/internal/dns/doh_cache.go:109-121 | over every run, an answer from a flight is the reply of the flight joined for the caller's own question, field by field, with the caller's identifier, the reply's endpoint and error, and without a message exactly when the reply had none |
| `DohAnswers.CachedAnswersOwn` | offveil-core/internal/dns/doh_cache.go:86-93 | over every run, an answer from the cache is to the caller's own question, under its identifier, from the endpoint that gave it |
| `DohAnswers.EnterExact` | offveil-core/internal/dns/doh_cache.go:84-108 | over every run, a question is answered at once exactly when a DoH answer with time left is cached, and otherwise waits for the flight of that question, a new one only if there is none |
| `DohAnswers.KeptIff` | offveil-core/internal/dns/doh_cache.go:206-238 | an answer may be kept exactly when it is complete, successful, unsigned, small, answers the question, has no fingerprint and time left in every record, for the least of their times and at most a minute |
| `DohAnswers.StoredIff` | offveil-core/internal/dns/doh_cache.go:134-164 | over every run, a reply enters the cache exactly when it came over DoH without error from an uncancelled flight of the present network and may be kept; the key was free, and any other reply leaves the cache as it is |
| `DohAnswers.StoreEvicts` | offveil-core/internal/dns/doh_cache.go:146-161 | over every run, storing removes every expired entry, keeps every other as it was, and only with 256 of those removes one with the nearest expiry |
| `DohAnswers.AbandonedIsCancelled` | offveil-core/internal/dns/doh_cache.go:167-177 | over every run, unfinished work that no caller wants has been cancelled |
| `DohAnswers.CloseCancels` | offveil-core/internal/dns/doh_cache.go:196-201 | closing cancels all unfinished work of the present network and nothing that had ended |
| `DohClient.Client.constructor` | offveil-core/internal/dns/doh.go:76-85 | a new client shows the empty table |
| `DohClient.Client.Lookup` | offveil-core/internal/dns/doh_cache.go:86-95 | returns a hit exactly for a fresh entry, and drops a stale one |
| `DohClient.Client.Join` | offveil-core/internal/dns/doh_cache.go:96-107 | is the miss step: one flight per key, one more waiter |
| `DohClient.Client.Enter` | offveil-core/internal/dns/doh_cache.go:84-108 | is the entering step of the table |
| `DohClient.Client.Receive` | offveil-core/internal/dns/doh_cache.go:114-121 | gives the caller the reply of its flight with its own identifier, the endpoint and the error, and no message exactly when the reply has none |
| `DohClient.Client.MakeRoom` | offveil-core/internal/dns/doh_cache.go:146-160 | the sweep removes the expired entries and then, at capacity, one with the nearest expiry |
| `DohClient.Client.Store` | offveil-core/internal/dns/doh_cache.go:140-162 | stores the answer exactly when and as the table says |
| `DohClient.Client.Forget` | offveil-core/internal/dns/doh_cache.go:172-174 | removes the key only while it leads to this very flight |
| `DohClient.Client.Resolve` | offveil-core/internal/dns/doh_cache.go:134-164 | is the resolving step of the table |
| `DohClient.Client.ReleaseFlight` | offveil-core/internal/dns/doh_cache.go:167-177 | is the releasing step: the last waiter forgets and cancels the flight |
| `DohClient.Client.ResetCache` | offveil-core/internal/dns/doh_cache.go:181-186 | is the reset step |
| `DohClient.Client.CancelAll` | offveil-core/internal/dns/doh_cache.go:196-201 | is the first half of Close: exactly the mapped flights are cancelled |
| `SystemDns.RecoverableDetermines` | offveil-core/internal/dns/system.go:254-346 | a safe state of disk and system determines the original setting of every service |
| `SystemDns.RetriesConverge` | offveil-core/internal/dns/system.go:315-346 | over any passes, each one that reads the record, sets a service and replaces the record takes it closer to its end, none takes it further away, and passes that do not help leave it as it is |
| `SystemDns.RestoreUntilDone` | offveil-core/internal/dns/system.go:315-371 | repeated restores, any of which may fail to load, set or save: after as many helpful ones as the record has services the record is gone and every setting is the original one, and every durable state on the way is recoverable |
| `SystemDns.ThereAndBack` | offveil-core/internal/dns/system.go:254-371 | when every call works, applying points every steered service at the stub and restoring brings every original setting back and removes the record |
| `SystemDns.FailingIsSubsequence` | offveil-core/internal/dns/system.go:323-346 | what stays pending is a subsequence of the record, in order |
| `SystemDns.FailingShorter` | offveil-core/internal/dns/system.go:323-346 | one success makes the pending list strictly shorter |
| `SystemDns.SweptSmooth` | offveil-core/internal/dns/system.go:373-414 | when no target failed to be read or set, clearing leaves the settings as they were if and only if no steered service had only the stub address |
| `NetServices.TargetsExact` | offveil-core/internal/dns/system.go:72-84 | the targets are the steerable services, and no others |
| `NetServices.SteerableIff` | offveil-core/internal/dns/system.go:39-84 | a service is steered exactly when it is enabled and named, its device has no virtual prefix, and no bridge, Bluetooth or VPN word occurs in its name or port, nor a VPN word in its device |
| `NetServices.VpnLeftAlone` | offveil-core/internal/dns/system.go:58-62 | a service with a VPN word anywhere in name, port or device is left alone |
| `NetServices.TrimMeans` | offveil-core/internal/dns/system.go:40-42 | names are compared without white space at their ends, and nothing else is taken off |
| `NetServices.ShortSteerable` | offveil-core/internal/dns/system.go:39-84 | a service whose names are too short for any excluding word and that has no device is steered |
| `SystemDns.System.constructor` | offveil-core/internal/dns/system.go:32-37 | a system starts without a record |
| `SystemDns.System.SetDNS` | offveil-core/internal/dns/system.go:32-37 | a call that works sets the servers, one that fails may leave anything behind, on its own service only |
| `SystemDns.System.Save` | offveil-core/internal/dns/restore.go:49-65 | the record is replaced atomically or not at all |
| `SystemDns.System.Clear` | offveil-core/internal/dns/restore.go:87-93 | the record is removed or left alone |
| `SystemDns.System.Load` | offveil-core/internal/dns/restore.go:67-85 | a successful load returns the record |
| `SystemDns.System.Snapshot` | offveil-core/internal/dns/system.go:276-287 | the record to be written holds the original setting of every target |
| `SystemDns.System.SetRecorded` | offveil-core/internal/dns/system.go:294-302 | setting a recorded service keeps every durable state recoverable, whether or not it succeeds |
| `SystemDns.System.PointAll` | offveil-core/internal/dns/system.go:292-302 | every state while pointing services at the stub is recoverable, and the successes are what was asked |
| `SystemDns.System.WriteBack` | offveil-core/internal/dns/system.go:323-337 | the pending list is exactly the failures, and every other service has its original setting |
| `SystemDns.System.Apply` | offveil-core/internal/dns/system.go:254-312 | for every course the platform calls can take: an unreadable stub address, a nonempty record or a failing read changes nothing; without a written record nothing is set; success means exactly that some service could be set, under a record that saves the setting of every target; otherwise the services were restored from that record; every durable state is recoverable |
| `SystemDns.System.Replay` | offveil-core/internal/dns/system.go:322-346 | one call for each service and one for the record; success exactly when all of them work; the record keeps exactly what failed, or everything if it could not be written |
| `SystemDns.System.Restore` | offveil-core/internal/dns/system.go:315-371 | from a record: success exactly when every call works, and then the original settings are back and the record is gone; otherwise the record keeps exactly what failed; every durable state is recoverable. Without a record nothing but armed clearing happens, on the services then listed |
| `SystemDns.System.FlushLeftover` | offveil-core/internal/dns/system.go:373-414 | each target is left unread, kept, cleared or failed exactly as its calls came out; only steered services with nothing but the stub address are touched, at every durable state; each cleared one ends on DHCP; and with no failure the settings are kept if and only if there was no such service |
| `SystemDns.OwnResolverLost` | offveil-core/internal/dns/system.go:348-357 | a user's own resolver on the stub address, on any steered service, is replaced by DHCP by an armed restore without a record whose calls succeed |
| `SystemDns.OwnResolverExample` | offveil-core/internal/dns/system.go:348-357 | one such service and resolver |
| `SystemDns.AnyRun` | offveil-core/internal/dns/system.go:254-371 | over any series of applies and restores, each of which may die after any of its writes, every durable state determines the original setting of every service, except those on the stub address that an armed restore which found no record was given to steer; no record left means they are back |
| `SystemDns.Crash` | offveil-core/internal/dns/system.go:254-371 | dying inside a call leaves one of the durable states it passed through |
| `Gateway.NetworkRouteExclusions` | offveil-core/internal/tunnel/network_config.go:22-41 | the loop keeps every valid exclusion once, in order |
| `Gateway.FixedRules` | offveil-core/internal/tunnel/selective_config.go:56-94 | the branch-by-branch appends build exactly the fixed head of the rule list |
| `Gateway.GroupLoop` | offveil-core/internal/tunnel/selective_config.go:95-114 | the loop over groups emits two rules and two selectors per usable group |
| `Gateway.BuildSelectiveConfig` | offveil-core/internal/tunnel/selective_config.go:44-153 | builds the rules, selectors and outbound tags of the specification, and refuses exactly a bad tunnel interface, core DNS address, provider or selector control |
| `Gateway.ProviderReady` | offveil-core/internal/tunnel/network_config.go:189-234 | refuses exactly a missing profile, a bare address that does not parse, and missing credentials |
| `Gateway.NoDanglingTag` | offveil-core/internal/tunnel/selective_config.go:95-145 | no connection is ever sent to an outbound the configuration does not define |
| `Gateway.StartsDefined` | offveil-core/internal/tunnel/selective_config.go:101-109 | no selector starts on an outbound the configuration does not define |
| `Gateway.CleanedCovers` | offveil-core/internal/tunnel/network_config.go:22-41 | cleaning the exclusions changes no address's membership |
| `Gateway.EvaluateGroups` | offveil-core/internal/tunnel/selective_config.go:95-114 | first-match evaluation of the group rules is the first matching group |
| `Gateway.HeadMeansPolicy` | offveil-core/internal/tunnel/selective_config.go:56-94 | the fixed head hijacks DNS, drops the own subnet and sends private and excluded destinations direct before anything else |
| `Gateway.RulesMeanPolicy` | offveil-core/internal/tunnel/selective_config.go:44-138 | under first-match evaluation the emitted rules equal the intended policy for every group list and every connection |
| `Gateway.TunnelOnlyThroughGroup` | offveil-core/internal/tunnel/selective_config.go:95-138 | a connection reaches the tunnel only through a group that matches it |
| `Gateway.GroupDecidesBoth` | offveil-core/internal/tunnel/selective_config.go:95-114 | the first matching group decides TCP and UDP of the same destination, whatever protocol was sniffed unless DNS or a QUIC drop takes it first |
| `GatewayRouting.SuffixMeans` | offveil-core/internal/tunnel/selective_config.go:87-93 | a suffix matches the name itself and the names below it, one with a leading dot only those below |
| `GatewayRouting.ExclusionsGoDirect` | offveil-core/internal/tunnel/network_config.go:22-41 | a destination inside a configured exclusion or provider endpoint goes direct, unless it is DNS or the gateway's own subnet |
| `GatewayRouting.ExemptGoDirect` | offveil-core/internal/tunnel/selective_config.go:84-89 | local, reserved and multicast addresses, the public resolvers, 100.64.0.0/10, configured exclusions and excluded names go direct |
| `GatewayRouting.OwnSubnetDropped` | offveil-core/internal/tunnel/selective_config.go:56-75 | DNS is hijacked, and anything else to the gateway's own subnet is dropped |
| `GatewayRouting.GroupRouted` | offveil-core/internal/tunnel/selective_config.go:95-114 | with a tunnel provider any other connection to a name of a group goes to the TCP or UDP selector of the first such group, except QUIC that must not pass |
| `GatewayRouting.RestRouted` | offveil-core/internal/tunnel/selective_config.go:90-115 | any other connection goes to the helper if it is TCP to port 80 or 443 of an IPv4 address, and direct if not |
| `Gateway.TagInjective` | offveil-core/internal/tunnel/selective_config.go:26-26 | selector tags of different groups or networks never collide |
| `Selectors.StartPaths` | offveil-core/internal/tunnel/selective_session.go:52-61 | every group starts on desync unless a tunnel exists and was asked for |
| `Selectors.StartCoupled` | offveil-core/internal/tunnel/selective_session.go:52-61 | the generated selector defaults put TCP and UDP of every group on its recorded side |
| `Selectors.DefaultsOffered` | offveil-core/internal/tunnel/selective_config.go:96-113 | every generated TCP selector offers helper and tunnel and every UDP selector the direct way and the tunnel; both start on the tunnel exactly when that was asked, and else on the helper and on the direct way |
| `Selectors.CoupledMeans` | offveil-core/internal/tunnel/selective_session.go:144-187 | a coupled group has TCP and UDP both on the tunnel when that is recorded, and on the helper and on the direct way when it is not; never one of them in the tunnel alone |
| `Selectors.SwitchFrame` | offveil-core/internal/tunnel/selective_session.go:144-187 | switching one group leaves the selectors and path of every other group alone |
| `Selectors.NilReturnIff` | offveil-core/internal/tunnel/selective_session.go:144-187 | a switch that reports success records the requested path, and leaves TCP and UDP on it if and only if the recorded path had to change or the pair was together before |
| `Selectors.SwitchSucceedsIff` | offveil-core/internal/tunnel/selective_session.go:144-187 | a switch reports success exactly when the session is open, knows the group, and the path is recorded or there is a tunnel, the path is known and both selectors could be set |
| `Selectors.SwitchLands` | offveil-core/internal/tunnel/selective_session.go:163-186 | a successful change leaves both selectors on the tunnel, or TCP on the helper and UDP on the direct way |
| `Selectors.FailedSwitchIff` | offveil-core/internal/tunnel/selective_session.go:171-182 | after a failed switch the pair is on the previous side if and only if the platform calls failed cleanly |
| `Selectors.RunCoupledIff` | offveil-core/internal/tunnel/selective_session.go:144-187 | over any series of switches with any ends, a group is together afterwards if and only if, for each of its selectors, no request moved it or the last one that did left it on the recorded side |
| `Selectors.RunCoupled` | offveil-core/internal/tunnel/selective_session.go:144-187 | over any series of switches in which the failed ones of this group took back what they moved, the group stays together, whatever happens to other groups |
| `Selectors.FailureRecouples` | offveil-core/internal/tunnel/selective_session.go:171-182 | a failed switch that takes the TCP selector back can put a split pair together again |
| `Selectors.SplitPair` | offveil-core/internal/tunnel/selective_session.go:154-157 | a failed rollback leaves a split pair on which the next switch to the recorded path reports success |
| `SelectorRaces.UninterruptedIsSwitch` | offveil-core/internal/tunnel/selective_session.go:144-187 | the steps of a call that nothing interrupts are the sequential switch |
| `SelectorRaces.RaceIff` | offveil-core/internal/tunnel/selective_session.go:144-187 | for any number of calls on a group that start before one of them writes the record, interleaved in any way with each other and with other groups, the group is together if and only if the record was written and TCP last moved forward, or it was not and UDP never moved and TCP is back |
| `SelectorRaces.AnyRaceIff` | offveil-core/internal/tunnel/selective_session.go:144-187 | for any calls interleaved in any way, once both selectors were moved the group is together if and only if the last moves of the two aimed at the sides of the path on record |
| `SelectorRaces.RaceSplits` | offveil-core/internal/tunnel/selective_session.go:174-185 | two overlapping calls to the tunnel, one succeeding and one failing and rolling back, leave the group split |
| `Selectors.SelectiveSession.constructor` | offveil-core/internal/tunnel/selective_session.go:52-90 | a started session is in the coupled start state |
| `Selectors.SelectiveSession.SelectOutbound` | offveil-core/internal/tunnel/selective_session.go:171-180 | a selector call moves one selector if it succeeds |
| `Selectors.SelectiveSession.SetGroupPath` | offveil-core/internal/tunnel/selective_session.go:144-187 | is the switch of the specification, including its error paths and rollback, and lands both selectors on the side asked for |
| `Selectors.SelectiveSession.Close` | offveil-core/internal/tunnel/selective_session.go:189-198 | closing is final and changes nothing else |
| `Chain.PassThroughFirst` | offveil-core/internal/desync/chain.go:25-49 | the index loop computes the wrapped strategy |
| `Chain.StrategyForCache` | offveil-core/internal/engine/strategy_recovery.go:176-187 | the loop removes the first marker of a wrapped strategy |
| `Chain.ParseIsRiffle` | offveil-core/internal/desync/chain.go:25-49 | globals and groups are the arguments dealt into two piles, order kept |
| `Chain.RiffleKeepsAll` | offveil-core/internal/desync/chain.go:25-49 | dealing loses and invents nothing |
| `Chain.WrapReorders` | offveil-core/internal/desync/chain.go:25-49 | wrapping permutes the arguments and adds one marker, keeping the order within globals and within groups |
| `ChainExact.WrapExact` | offveil-core/internal/desync/chain.go:25-49 | position by position: a suffixed strategy, or one with only process-wide arguments, stays; any other gets the suffix, its process-wide flags with their values first, then the marker, then the rest, in order |
| `ChainExact.UnwrapExact` | offveil-core/internal/engine/strategy_recovery.go:176-187 | the suffix and the first marker go, and without either nothing changes |
| `Chain.UnwrapRemovesMarker` | offveil-core/internal/engine/strategy_recovery.go:176-187 | the removed marker is the inserted one, and the identifier is the original |
| `Chain.WrapIdempotent` | offveil-core/internal/desync/chain.go:25-28 | wrapping a wrapped strategy changes nothing |
| `Chain.RewrapStable` | offveil-core/internal/desync/chain.go:25-49 | wrapping the cached form gives the same identifier and arguments when no flag dangles |
| `Chain.RewrapBreaks` | offveil-core/internal/desync/chain.go:30-45 | a dangling value flag makes the second wrapping different |
| `Chain.RestartIff` | offveil-core/internal/engine/strategy_recovery.go:176-187 | for every strategy, caching it and wrapping the cached form gives the same run if and only if its marker is in place and its identifier carries the suffix once, or, unwrapped, it has nothing to wrap |
| `Chain.WrapRoundTrip` | offveil-core/internal/engine/strategy_recovery.go:176-187 | for every strategy, wrap, cache, wrap again is stable if and only if no value flag dangles or nothing is wrapped, and for one already wrapped if and only if it is restartable |
| `Chain.MisplacedMarker` | offveil-core/internal/desync/chain.go:25-49 | every wrapped strategy with a group in front of its marker restarts differently |
| `ChainSpecs.FromSpec` | offveil-core/internal/desync/chain.go:131-140 | a specification becomes a candidate exactly when it is allowed, with the options of the built-in set in front |
| `ChainSpecs.PrefixRestartable` | offveil-core/internal/desync/chain.go:131-140 | whether a candidate restarts as confirmed does not depend on the options in front |
| `ChainSpecs.CandidateRoundTrip` | offveil-core/internal/desync/chain.go:131-140 | for every specification, its candidate comes back from the store as it ran if and only if no flag of the specification dangles or it has no groups, or, with a suffixed identifier, its own arguments are restartable |
| `ChainSpecs.PlainSpecRoundTrip` | offveil-core/internal/desync/chain.go:96-140 | every allowed specification without a suffixed identifier and without values that read as flags comes back |
| `ChainSpecs.MisplacedExample` | offveil-core/internal/desync/chain.go:131-140 | an allowed specification with a suffixed identifier and a group before its marker, nothing dangling, that restarts differently |
| `ChainSpecs.SuffixedTwice` | offveil-core/internal/desync/chain.go:131-140 | an allowed specification whose identifier carries the suffix twice restarts under another identifier |
| `Chain.CachedRestart` | offveil-core/internal/engine/layers.go:58-64 | a stored strategy starts the helper with the arguments it was verified with if and only if it is restartable |
| `Chain.ValidateStrategyArgs` | offveil-core/internal/desync/chain.go:96-127 | accepts exactly the argument lists of the specification, and on macOS those without unsupported flags |
| `ChainExact.AcceptedIff` | offveil-core/internal/desync/chain.go:96-122 | a list is accepted exactly when every argument that is not the value of the one before is a known flag with the value it takes |
| `Chain.ContainsDarwinUnsupported` | offveil-core/internal/desync/platform.go:38-53 | finds an unsupported flag exactly when there is one |
| `Chain.AcceptedNotDangling` | offveil-core/internal/desync/chain.go:96-128 | accepted arguments with plain values do not dangle |
| `ChainSpecs.AcceptedButDangling` | offveil-core/internal/desync/chain.go:96-140 | an allowed specification that dangles and restarts differently |
| `ScanTrial.FreshLoop` | offveil-core/internal/desync/scan.go:117-138 | the loop keeps first occurrences not seen before |
| `ScanTrial.PrepareTargets` | offveil-core/internal/desync/scan.go:87-138 | computes the required and verify hosts of the specification and refuses exactly a scan without targets or a quorum outside the number of named hosts |
| `ScanTrial.PreparedExact` | offveil-core/internal/desync/scan.go:117-138 | every named host is probed once, the caller's own first, and a required host as such only if it is not among them |
| `ScanTrial.Tally` | offveil-core/internal/desync/scan.go:267-302 | the counters equal the probes that opened, and those that opened in time |
| `ScanTrial.Verdict` | offveil-core/internal/desync/scan.go:291-342 | the branches decide exactly the winning condition |
| `ScanTrial.WinnerOpened` | offveil-core/internal/desync/scan.go:303-322 | a winning trial opened every required host before it ended and reached the quorum of verify hosts |
| `ScanTrial.WinsIff` | offveil-core/internal/desync/scan.go:303-322 | a trial wins exactly when every required host opened in time, enough of the others did, and it was alive at its end, or there is a quorum and the scan was alive |
| `ScanTrial.StalledControl` | offveil-core/internal/desync/scan.go:316-319 | a quorum of two survives one of three controls that stalls to the deadline |
| `ScanTrial.RequiredGuaranteedIff` | offveil-core/internal/desync/scan.go:117-138 | winning guarantees the required hosts if and only if none of them is also a verify host or the quorum is all |
| `ScanTrial.MissedRequired` | offveil-core/internal/desync/scan.go:117-138 | a winning trial that never opened a required host |
| `ScanPool.StepInv` | offveil-core/internal/desync/scan.go:169-204 | every worker step keeps: each candidate held or tried at most once, sessions owned by their worker |
| `ScanPool.RunInv` | offveil-core/internal/desync/scan.go:169-204 | the pool invariant holds along every schedule |
| `ScanPool.Progress` | offveil-core/internal/desync/scan.go:171-197 | a worker that is not finished always has a step |
| `ScanPool.RunsAreFinite` | offveil-core/internal/desync/scan.go:171-204 | no schedule is longer than the work there was |
| `ScanPool.StuckMeansDone` | offveil-core/internal/desync/scan.go:171-204 | a schedule that cannot continue has finished every worker |
| `ScanPool.ScanCorrect` | offveil-core/internal/desync/scan.go:140-226 | when the workers are done no session is open, no candidate was tried twice, the report is in candidate order, a returned winner opened every probed required host in time and reached the quorum, and a winner is returned exactly when some trial was convincing and the caller is still there |
| `ScanPool.ScanExhaustive` | offveil-core/internal/desync/scan.go:169-204 | a scan that ends without a winner, a timeout or a cancellation has tried every candidate |
| `ScanPool.WorkersMean` | offveil-core/internal/desync/scan.go:159-163 | one to four workers, two unless asked otherwise, never more than candidates |
| `NetAddr.BlockShorter` | offveil-core/internal/capture/exclude.go:88-98 | addresses equal under a longer prefix are equal under a shorter one |
| `NetAddr.MaskedContains` | offveil-core/internal/capture/exclude.go:75-81 | a masked prefix contains the same addresses |
| `NetAddr.OverlapIsSharing` | offveil-core/internal/capture/exclude.go:88-98 | prefixes overlap exactly when they have an address in common |
| `NetAddr.SharedMeansOverlap` | offveil-core/internal/capture/exclude.go:88-98 | prefixes that share an address overlap |
| `NetAddr.OverlapShares` | offveil-core/internal/capture/exclude.go:88-98 | overlapping prefixes share an address |
| `ExcludeExact.ContainsRange` | offveil-core/internal/capture/exclude.go:55-59 | a prefix covers exactly the addresses of its family in its range of numbers |
| `Exclude.IsExcludedLoop` | offveil-core/internal/capture/exclude.go:47-61 | the loop decides exclusion, mapped addresses included |
| `Exclude.OverlapsAny` | offveil-core/internal/capture/exclude.go:89-98 | finds an overlap exactly when there is one |
| `Exclude.FilterWith` | offveil-core/internal/capture/exclude.go:65-106 | the loop with its seen map computes the allowed prefixes |
| `Exclude.FilterAllowlist` | offveil-core/internal/capture/exclude.go:65-71 | uses the default exclusions when none are given |
| `Exclude.AllowedExact` | offveil-core/internal/capture/exclude.go:65-106 | exactly the candidates that pass are kept, each once |
| `ExcludeExact.KeptIff4` | offveil-core/internal/capture/exclude.go:65-106 | an IPv4 candidate is kept, with its host bits cleared, exactly when it has a length, starts on an ordinary address and shares no address with any exclusion |
| `ExcludeExact.KeptIff6` | offveil-core/internal/capture/exclude.go:65-106 | the same of an IPv6 candidate that does not spell IPv4 addresses |
| `ExcludeExact.KeptIffMapped` | offveil-core/internal/capture/exclude.go:75-81 | one that does counts as the IPv4 prefix it spells, and contributes nothing if shorter than 96 bits |
| `Exclude.AllowedInOrder` | offveil-core/internal/capture/exclude.go:65-106 | outputs keep the order of first appearance |
| `Exclude.AllowedMasked` | offveil-core/internal/capture/exclude.go:72-84 | outputs are masked and never of length zero |
| `Exclude.DefaultListsSpecials` | offveil-core/internal/capture/exclude.go:7-45 | the default prefixes cover every special address class |
| `ExcludeExact.SpecialRanges4` | offveil-core/internal/capture/exclude.go:52-54 | the special IPv4 classes are exactly these ranges |
| `ExcludeExact.SpecialRanges6` | offveil-core/internal/capture/exclude.go:52-54 | the special IPv6 classes are exactly these ranges |
| `ExcludeExact.DefaultExcludes4` | offveil-core/internal/capture/exclude.go:7-45 | by default an IPv4 address is excluded exactly when it is local, multicast, reserved or one of the six public resolvers |
| `Exclude.CoveredNotExcluded` | offveil-core/internal/capture/exclude.go:47-106 | no IPv4 address and no unmapped IPv6 address under any output prefix is excluded, although only the base address and overlaps are tested |
| `Exclude.CoverageSafeIff` | offveil-core/internal/capture/exclude.go:47-106 | all covered addresses are safe if and only if no candidate passes as an IPv6 prefix around the mapped block |
| `Exclude.MappedCounterexample` | offveil-core/internal/capture/exclude.go:47-106 | an output prefix that covers an excluded mapped address |
| `Poison.DefaultPoisonSet` | offveil-core/internal/dns/poison.go:28-42 | the set holds exactly the listed fingerprints, each under its name |
| `Poison.WithExtra` | offveil-core/internal/dns/poison.go:46-63 | adds exactly the IPv4 fingerprints given, under their ruleset names, and keeps known names |
| `Poison.SameMatch` | offveil-core/internal/dns/doh_cache.go:217-224 | the cache's own reading of the address finds the same records as the filter's |
| `Poison.FilterPoisonAnswers` | offveil-core/internal/dns/plain.go:78-99 | the in-place compaction equals the order-preserving filter and reports a fingerprint exactly when some address record has one |
| `Poison.FilteredExact` | offveil-core/internal/dns/plain.go:78-99 | exactly the usable clean records survive, in order |
| `Poison.FilteredCounts` | offveil-core/internal/dns/plain.go:78-99 | every record that is no address record, and every address record with an IPv4 address that is no fingerprint, survives as often as it occurs and in order, and nothing else does |
| `Poison.HintsGone` | offveil-core/internal/dns/stub.go:116-135 | stripping removes exactly the IPv6 hints and keeps every other value as often as it occurs and in order |
| `Poison.StripIPv6Hints` | offveil-core/internal/dns/stub.go:116-135 | strips the hints of every record in place and nothing else |
| `Poison.ServedClean` | offveil-core/internal/dns/stub.go:186-203 | no served answer has a fingerprint, and in IPv4-only mode none has an IPv6 hint |
| `Poison.CleanAnswer` | offveil-core/internal/dns/stub.go:186-203 | computes the served answer |
| `Poison.Handle` | offveil-core/internal/dns/stub.go:137-204 | every reply the stub writes is clean and carries the question's identifier, whether it came from cache, DoH or plain UDP; a fingerprint means failure, and a message of servable records comes back with its sections unchanged, apart from IPv6 hints in IPv4-only mode |
| `Quoting.LiteralRoundTrip` | offveil-core/internal/appservice/launchd.go:74-76 | reading the AppleScript literal gives back the string and the rest |
| `Quoting.ShQuoteRead` | offveil-core/internal/appservice/launchd.go:70-72 | the shell reads the quoted text back as one word |
| `Quoting.ShellLineRead` | offveil-core/internal/appservice/launchd.go:64-67 | the shell splits the line into the assignment, the program and the action |
| `Quoting.ElevateScriptRoundTrip` | offveil-core/internal/appservice/launchd.go:64-76 | decoding the script and splitting by sections 2.2.1 to 2.2.3 of the POSIX Shell Command Language gives exactly the three words |
| `Quoting.SudoersRoundTrip` | offveil-core/internal/appservice/launchd.go:51-60 | unescaping gives back the path and no bare delimiter is left |
| `Quoting.SudoersCommandsRead` | offveil-core/internal/appservice/launchd.go:41-60 | the command list reads back as the program with start and the program with stop |

## Left out

- Exclusion between a repair and other work on the same component is not claimed: the code does not maintain it; `EngineLosses.RunCoveredIff` says exactly when it matters.
- The group-work flag and group counters of the engine: stale work clears the flag of a later session, so no exclusion across sessions holds, and path switches of one group may overlap.
- Status summaries, error classification and failure journal text: branch-by-branch mappings with nothing to prove across functions.
- The status refresh is its own step of the engine runs, so runs contain a few more lock-free states than the program.
- The heal mutex: runs allow several heals at once, which only adds behaviours.
- IPv6-answer policy of the stub after a resolver restart: the code does not maintain it.
- `MergeCandidates`: a simple list operation.
- The DoH circuit breaker and the endpoint race of `exchange`: their result is the reply of a flight.
- Questions that are not shared (several questions, signed or not plain queries): they go upstream directly and touch no table.
- Gateway.BuildSelectiveConfig: the listener, TUN and DNS server fields of the document and the endpoint fields of the provider are not modelled, because they do not reach the rules.
- NetServices.SteerableIff: lower-casing of names covers ASCII letters only.
- Parsing of `networksetup` output, and `net.ParseIP`, which is a parameter of the system DNS model.
- sing-box, the desync helper and the DNS library are represented by first-match routing, sessions that start or not, and deep message copies.
- Sockets, TLS, HTTP, WARP registration, Windows and macOS system calls, JSON and file formats, signature checks, the user interface and the updater.
- The record origin in cache entries, the durable-state history, the call counter and the close trace exist only to state properties.
