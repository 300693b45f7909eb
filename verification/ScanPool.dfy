/**
  The worker pool of offveil-core/internal/desync/scan.go as a step system: one feeder,
  a fixed set of workers, a result channel and a shared cancellation. Every interleaving of
  their steps is a run.
 */
module ScanPool {
  import opened Options
  import opened ScanTrial

  datatype Worker =
    | Idle
    | Received(index: nat)
    | Starting(index: nat)
    | Probing(index: nat, open: bool)
    | Exited

  /** A finished trial, in the order the collector receives it. */
  datatype Outcome = Outcome(index: nat, trial: Option<Trial>, ok: bool)

  datatype Pool = Pool(
    count: nat,            // candidates
    quorum: int,
    fed: nat,              // candidates handed to workers so far
    closed: bool,          // the job channel
    cancelled: bool,       // timeout, caller or winner
    workers: seq<Worker>,
    sessions: set<nat>,    // open helper sessions, by candidate
    results: seq<Outcome>)

  datatype Event =
    | Cancel                                    // deadline or caller
    | CloseJobs                                 // feeder returns
    | Send(worker: nat)                         // feeder hands over the next candidate
    | Check(worker: nat)                        // worker reads the context
    | StartHelper(worker: nat, opens: bool)
    | Finish(worker: nat, trial: Option<Trial>) // trial ends, its helper is closed, its result is sent
    | EndOfJobs(worker: nat)

  function Workers(count: nat, asked: int): nat {
    var c := if asked <= 0 then 2 else asked;
    var capped := if c < 4 then c else 4;
    if capped < count then capped else count
  }

  function Initial(count: nat, quorum: int, asked: int): Pool {
    Pool(count, quorum, 0, false, false, seq(Workers(count, asked), i => Idle), {}, [])
  }

  predicate TrialWins(trial: Option<Trial>, quorum: int) {
    trial.Some? && Wins(trial.value, quorum)
  }

  predicate Enabled(s: Pool, e: Event) {
    match e
    case Cancel => !s.cancelled
    case CloseJobs => !s.closed && (s.cancelled || s.fed == s.count)
    case Send(w) => w < |s.workers| && s.workers[w].Idle? && !s.closed && s.fed < s.count
    case Check(w) => w < |s.workers| && s.workers[w].Received?
    case StartHelper(w, _) => w < |s.workers| && s.workers[w].Starting?
    case Finish(w, trial) => w < |s.workers| && s.workers[w].Probing? && (trial.Some? ==> s.workers[w].open)
    case EndOfJobs(w) => w < |s.workers| && s.workers[w].Idle? && s.closed
  }

  function Set(s: Pool, w: nat, next: Worker): Pool
    requires w < |s.workers|
  {
    s.(workers := s.workers[w := next])
  }

  function Apply(s: Pool, e: Event): Pool
    requires Enabled(s, e)
  {
    match e
    case Cancel => s.(cancelled := true)
    case CloseJobs => s.(closed := true)
    case Send(w) => Set(s, w, Received(s.fed)).(fed := s.fed + 1)
    case Check(w) => Set(s, w, if s.cancelled then Exited else Starting(s.workers[w].index))
    case StartHelper(w, opens) =>
      var i := s.workers[w].index;
      Set(s, w, Probing(i, opens)).(sessions := if opens then s.sessions + {i} else s.sessions)
    case Finish(w, trial) =>
      var i := s.workers[w].index;
      var ok := TrialWins(trial, s.quorum);
      Set(s, w, if ok then Exited else Idle).(
        sessions := s.sessions - {i},
        cancelled := s.cancelled || ok,
        results := s.results + [Outcome(i, trial, ok)])
    case EndOfJobs(w) => Set(s, w, Exited)
  }

  /** The events can happen one after the other from s. */
  predicate Valid(s: Pool, es: seq<Event>)
    decreases |es|
  {
    es == [] || (Enabled(s, es[0]) && Valid(Apply(s, es[0]), es[1..]))
  }

  function Final(s: Pool, es: seq<Event>): Pool
    requires Valid(s, es)
    decreases |es|
  {
    if es == [] then s else Final(Apply(s, es[0]), es[1..])
  }

  predicate Done(s: Pool) {
    forall w :: 0 <= w < |s.workers| ==> s.workers[w].Exited?
  }

  // ----------------------------------------------------------------- invariant

  predicate Holds(w: Worker, i: nat) {
    (w.Received? || w.Starting? || w.Probing?) && w.index == i
  }

  predicate HasOpen(w: Worker, i: nat) {
    w.Probing? && w.open && w.index == i
  }

  ghost predicate Tried(s: Pool, i: nat) {
    exists k :: 0 <= k < |s.results| && s.results[k].index == i
  }

  ghost predicate HeldOnce(s: Pool) {
    forall v, w, i: nat {:trigger Holds(s.workers[v], i), Holds(s.workers[w], i)} ::
      0 <= v < |s.workers| && 0 <= w < |s.workers| && Holds(s.workers[v], i) && Holds(s.workers[w], i) ==> v == w
  }

  ghost predicate HeldUntried(s: Pool) {
    forall w, i: nat {:trigger Holds(s.workers[w], i)} ::
      0 <= w < |s.workers| && Holds(s.workers[w], i) ==> i < s.fed && !Tried(s, i)
  }

  ghost predicate TriedOnce(s: Pool) {
    && (forall j, k :: 0 <= j < k < |s.results| ==> s.results[j].index != s.results[k].index)
    && (forall k :: 0 <= k < |s.results| ==> s.results[k].index < s.fed)
  }

  /** Every candidate is held by at most one worker or was tried at most once, and never both. */
  ghost predicate OnceEach(s: Pool) {
    HeldOnce(s) && HeldUntried(s) && TriedOnce(s)
  }

  ghost predicate SessionsOwned(s: Pool) {
    forall i :: i in s.sessions ==> exists w :: 0 <= w < |s.workers| && HasOpen(s.workers[w], i)
  }

  ghost predicate Inv(s: Pool) {
    && s.fed <= s.count
    && OnceEach(s)
    && SessionsOwned(s)
    && (s.closed ==> s.cancelled || s.fed == s.count)
    && (forall w :: 0 <= w < |s.workers| && s.workers[w].Exited? ==> s.cancelled || s.closed)
    && (forall k :: 0 <= k < |s.results| ==> s.results[k].ok == TrialWins(s.results[k].trial, s.quorum))
    && (forall k :: 0 <= k < |s.results| && s.results[k].ok ==> s.cancelled)
  }

  lemma InitialInv(count: nat, quorum: int, asked: int)
    ensures Inv(Initial(count, quorum, asked))
  {
  }

  lemma HeldBefore(s: Pool, e: Event, w: nat, i: nat)
    requires Enabled(s, e) && w < |s.workers| && Holds(Apply(s, e).workers[w], i)
    ensures Holds(s.workers[w], i) || (e == Send(w) && i == s.fed)
    ensures e.Finish? ==> e.worker != w
  {
  }

  lemma HeldOnceStep(s: Pool, e: Event)
    requires Inv(s) && Enabled(s, e)
    ensures HeldOnce(Apply(s, e))
  {
    var t := Apply(s, e);
    forall v, w, i: nat {:trigger Holds(t.workers[v], i), Holds(t.workers[w], i)} |
      0 <= v < |t.workers| && 0 <= w < |t.workers| && Holds(t.workers[v], i) && Holds(t.workers[w], i)
      ensures v == w
    {
      HeldBefore(s, e, v, i);
      HeldBefore(s, e, w, i);
    }
  }

  lemma HeldUntriedStep(s: Pool, e: Event)
    requires Inv(s) && Enabled(s, e)
    ensures HeldUntried(Apply(s, e))
  {
    var t := Apply(s, e);
    forall w, i: nat {:trigger Holds(t.workers[w], i)} | 0 <= w < |t.workers| && Holds(t.workers[w], i)
      ensures i < t.fed && !Tried(t, i)
    {
      HeldBefore(s, e, w, i);
      assert !Tried(s, i);
      if e.Finish? {
        assert Holds(s.workers[e.worker], s.workers[e.worker].index);
      }
    }
  }

  lemma OnceEachStep(s: Pool, e: Event)
    requires Inv(s) && Enabled(s, e)
    ensures OnceEach(Apply(s, e))
  {
    HeldOnceStep(s, e);
    HeldUntriedStep(s, e);
    if e.Finish? {
      var i := s.workers[e.worker].index;
      assert Holds(s.workers[e.worker], i) && !Tried(s, i);
    }
  }

  lemma SessionsStep(s: Pool, e: Event)
    requires Inv(s) && Enabled(s, e)
    ensures SessionsOwned(Apply(s, e))
  {
    var t := Apply(s, e);
    forall i | i in t.sessions
      ensures exists w :: 0 <= w < |t.workers| && HasOpen(t.workers[w], i)
    {
      if e.StartHelper? && i == s.workers[e.worker].index && e.opens {
        assert HasOpen(t.workers[e.worker], i);
      } else {
        var w :| 0 <= w < |s.workers| && HasOpen(s.workers[w], i);
        assert HasOpen(t.workers[w], i);
      }
    }
  }

  lemma StepInv(s: Pool, e: Event)
    requires Inv(s) && Enabled(s, e)
    ensures Inv(Apply(s, e))
  {
    OnceEachStep(s, e);
    SessionsStep(s, e);
  }

  lemma {:induction false} RunInv(s: Pool, es: seq<Event>)
    requires Inv(s) && Valid(s, es)
    ensures Inv(Final(s, es))
    decreases |es|
  {
    if es != [] {
      StepInv(s, es[0]);
      RunInv(Apply(s, es[0]), es[1..]);
    }
  }

  // ------------------------------------------------------------------ progress

  /** No worker waits for ever: while one is alive, it or the feeder serving it can move without a new cancellation. */
  lemma Progress(s: Pool, w: nat) returns (e: Event)
    requires Inv(s) && w < |s.workers| && !s.workers[w].Exited?
    ensures Enabled(s, e) && !e.Cancel?
    ensures e.CloseJobs? || e.worker == w
  {
    e := match s.workers[w]
      case Idle => if s.closed then EndOfJobs(w) else if s.fed < s.count then Send(w) else CloseJobs
      case Received(_) => Check(w)
      case Starting(_) => StartHelper(w, false)
      case Probing(_, _) => Finish(w, None);
  }

  function Weight(w: Worker): nat {
    match w
    case Idle => 1
    case Received(_) => 4
    case Starting(_) => 3
    case Probing(_, _) => 2
    case Exited => 0
  }

  function Weights(ws: seq<Worker>): nat {
    if ws == [] then 0 else Weight(ws[0]) + Weights(ws[1..])
  }

  lemma {:induction false} WeightsUpdate(ws: seq<Worker>, w: nat, next: Worker)
    requires w < |ws|
    ensures Weights(ws[w := next]) == Weights(ws) - Weight(ws[w]) + Weight(next)
  {
    if w == 0 {
      assert ws[w := next][1..] == ws[1..];
    } else {
      assert ws[w := next][1..] == ws[1..][w - 1 := next];
      WeightsUpdate(ws[1..], w - 1, next);
    }
  }

  function Remaining(s: Pool): int {
    4 * (s.count - s.fed) + Weights(s.workers) + (if s.closed then 0 else 1) + (if s.cancelled then 0 else 1)
  }

  lemma StepDecreases(s: Pool, e: Event)
    requires Inv(s) && Enabled(s, e)
    ensures Remaining(Apply(s, e)) < Remaining(s)
  {
    if !e.Cancel? && !e.CloseJobs? {
      WeightsUpdate(s.workers, e.worker, Apply(s, e).workers[e.worker]);
    }
  }

  /** Every run is finite, with a bound known at the start. */
  lemma {:induction false} RunsAreFinite(s: Pool, es: seq<Event>)
    requires Inv(s) && Valid(s, es)
    ensures |es| <= Remaining(s)
    decreases |es|
  {
    if es != [] {
      StepDecreases(s, es[0]);
      StepInv(s, es[0]);
      RunsAreFinite(Apply(s, es[0]), es[1..]);
    }
  }

  /** A run that cannot be continued has stopped every worker. */
  lemma StuckMeansDone(s: Pool)
    requires Inv(s) && forall e :: Enabled(s, e) ==> e.Cancel?
    ensures Done(s)
  {
    forall w | 0 <= w < |s.workers|
      ensures s.workers[w].Exited?
    {
      if !s.workers[w].Exited? {
        var e := Progress(s, w);
        assert false;
      }
    }
  }

  // -------------------------------------------------------------- what Scan returns

  /** The finished trials sorted by candidate, as sort.Slice leaves them. */
  function InOrder(results: seq<Outcome>, count: nat): seq<Outcome> {
    if count == 0 then [] else InOrder(results, count - 1) + Pick(results, count - 1)
  }

  function Pick(results: seq<Outcome>, index: nat): seq<Outcome> {
    if results == [] then []
    else (if results[0].index == index then [results[0]] else []) + Pick(results[1..], index)
  }

  /** The first winner the collector saw; a cancelled or timed-out caller gets none. */
  function Winner(results: seq<Outcome>): Option<Outcome> {
    if results == [] then None
    else if results[0].ok then Some(results[0])
    else Winner(results[1..])
  }

  function Returned(s: Pool, callerGone: bool): Option<Outcome> {
    if callerGone then None else Winner(s.results)
  }

  lemma {:induction false} PickExact(results: seq<Outcome>, index: nat)
    requires forall j, k :: 0 <= j < k < |results| ==> results[j].index != results[k].index
    ensures var p := Pick(results, index);
            && |p| <= 1
            && (p == [] <==> forall k :: 0 <= k < |results| ==> results[k].index != index)
            && (p != [] ==> p[0] in results && p[0].index == index)
  {
    if results != [] {
      PickExact(results[1..], index);
      var p := Pick(results[1..], index);
      assert forall k :: 1 <= k < |results| ==> results[k] == results[1..][k - 1];
      if p != [] {
        assert p[0] in results;
      }
      if results[0].index == index {
        assert p == [];
      }
    }
  }

  lemma PickMember(results: seq<Outcome>, index: nat, o: Outcome)
    requires forall j, k :: 0 <= j < k < |results| ==> results[j].index != results[k].index
    ensures o in Pick(results, index) <==> o in results && o.index == index
  {
    PickExact(results, index);
    if o in results && o.index == index {
      var k :| 0 <= k < |results| && results[k] == o;
      var p := Pick(results, index)[0];
      var k' :| 0 <= k' < |results| && results[k'] == p;
    }
  }

  lemma {:induction false} InOrderMember(results: seq<Outcome>, count: nat, o: Outcome)
    requires forall j, k :: 0 <= j < k < |results| ==> results[j].index != results[k].index
    ensures o in InOrder(results, count) <==> o in results && o.index < count
  {
    if count > 0 {
      InOrderMember(results, count - 1, o);
      PickMember(results, count - 1, o);
    }
  }

  ghost predicate Increasing(s: seq<Outcome>) {
    forall i, j :: 0 <= i < j < |s| ==> s[i].index < s[j].index
  }

  /** The returned list has strictly increasing candidates. */
  lemma {:induction false} InOrderSorted(results: seq<Outcome>, count: nat)
    requires forall j, k :: 0 <= j < k < |results| ==> results[j].index != results[k].index
    ensures Increasing(InOrder(results, count))
  {
    if count > 0 {
      InOrderSorted(results, count - 1);
      PickExact(results, count - 1);
      var before := InOrder(results, count - 1);
      var last := Pick(results, count - 1);
      var out := before + last;
      forall i, j | 0 <= i < j < |out|
        ensures out[i].index < out[j].index
      {
        assert out[i] == before[i];
        if j < |before| {
          assert out[j] == before[j];
          assert before[i].index < before[j].index;
        } else {
          assert out[j] == last[0];
          InOrderMember(results, count - 1, before[i]);
          assert before[i] in before;
          assert before[i].index < count - 1;
          assert last[0].index == count - 1;
        }
      }
    }
  }

  lemma {:induction false} WinnerIsResult(results: seq<Outcome>)
    ensures Winner(results).Some? ==> Winner(results).value in results && Winner(results).value.ok
    ensures Winner(results).None? ==> forall k :: 0 <= k < |results| ==> !results[k].ok
  {
    if results != [] {
      WinnerIsResult(results[1..]);
      assert forall k :: 1 <= k < |results| ==> results[k] == results[1..][k - 1];
    }
  }

  /** A trial that took place, opened every required host in time and enough of the others, and did not come too late. */
  predicate Convincing(trial: Option<Trial>, quorum: int) {
    trial.Some? && var t := trial.value;
      && (forall i :: 0 <= i < |t.required| ==> t.required[i].open && t.required[i].inTime)
      && |set i: nat | i < |t.hosts| && t.hosts[i].open && t.hosts[i].inTime| >= (if quorum <= 0 then |t.hosts| else quorum)
      && (!t.expired || (quorum > 0 && !t.cancelled))
  }

  /** The trials of a run were observed on live contexts and probed the prepared targets. */
  ghost predicate Observations(s: Pool, targets: Targets) {
    forall k :: 0 <= k < |s.results| && s.results[k].trial.Some? ==>
      Observed(s.results[k].trial.value) && ProbedFor(s.results[k].trial.value, targets)
  }

  /**
    Main result, for every interleaving that lets all workers finish: no helper session is left
    open, no candidate was tried twice, the report lists the trials in candidate order, and a
    returned winner opened every probed required host in time and reached its quorum.
   */
  lemma ScanCorrect(count: nat, cfg: Config, asked: int, es: seq<Event>, callerGone: bool)
    requires !Refused(cfg)
    requires Valid(Initial(count, cfg.quorum, asked), es)
    requires Done(Final(Initial(count, cfg.quorum, asked), es))
    requires Observations(Final(Initial(count, cfg.quorum, asked), es), Prepared(cfg))
    ensures var s := Final(Initial(count, cfg.quorum, asked), es);
            && s.sessions == {}
            && (forall j, k :: 0 <= j < k < |s.results| ==> s.results[j].index != s.results[k].index)
            && (var report := InOrder(s.results, count);
                && Increasing(report)
                && (forall o :: o in report <==> o in s.results))
            && (Returned(s, callerGone).Some? ==>
                  var o := Returned(s, callerGone).value;
                  && o.index < count
                  && o.trial.Some?
                  && ProbedFor(o.trial.value, Prepared(cfg))
                  && (forall h :: h in Prepared(cfg).required ==> HostOpened(o.trial.value, Prepared(cfg), h))
                  && OpenedInTime(o.trial.value.hosts) >= Needed(cfg.quorum, |Hosts(cfg)|))
            && (Returned(s, false).None? <==> forall k :: 0 <= k < |s.results| ==> !s.results[k].ok)
            && (Returned(s, callerGone).Some? <==> !callerGone && exists k :: 0 <= k < |s.results| && Convincing(s.results[k].trial, cfg.quorum))
  {
    var s0 := Initial(count, cfg.quorum, asked);
    InitialInv(count, cfg.quorum, asked);
    RunInv(s0, es);
    RunKeeps(s0, es);
    var s := Final(s0, es);
    InOrderSorted(s.results, count);
    forall o
      ensures o in InOrder(s.results, count) <==> o in s.results
    {
      InOrderMember(s.results, count, o);
    }
    WinnerIsResult(s.results);
    forall k | 0 <= k < |s.results|
      ensures s.results[k].ok <==> Convincing(s.results[k].trial, cfg.quorum)
    {
      if s.results[k].trial.Some? {
        WinsIff(s.results[k].trial.value, cfg.quorum);
      }
    }
    assert forall i :: i !in s.sessions;
    if Returned(s, callerGone).Some? {
      var o := Returned(s, callerGone).value;
      var k :| 0 <= k < |s.results| && s.results[k] == o;
      WinnerOpened(o.trial.value, cfg.quorum);
    }
  }

  // --------------------------------------------------------------- nothing is skipped

  /** Until a cancellation, every candidate handed out is in the hands of a worker or was tried. */
  ghost predicate Accounted(s: Pool) {
    !s.cancelled ==> forall i: nat :: i < s.fed ==> Tried(s, i) || exists w :: 0 <= w < |s.workers| && Holds(s.workers[w], i)
  }

  lemma AccountedStep(s: Pool, e: Event)
    requires Accounted(s) && Enabled(s, e)
    ensures Accounted(Apply(s, e))
  {
    var t := Apply(s, e);
    if !t.cancelled {
      forall i: nat | i < t.fed
        ensures Tried(t, i) || exists w :: 0 <= w < |t.workers| && Holds(t.workers[w], i)
      {
        if i == s.fed {
          assert Holds(t.workers[e.worker], i);
        } else if Tried(s, i) {
          var k :| 0 <= k < |s.results| && s.results[k].index == i;
          assert t.results[k].index == i;
        } else {
          var w :| 0 <= w < |s.workers| && Holds(s.workers[w], i);
          if e.Finish? && e.worker == w {
            assert t.results[|s.results|].index == i;
          } else {
            assert Holds(t.workers[w], i);
          }
        }
      }
    }
  }

  lemma {:induction false} RunAccounted(s: Pool, es: seq<Event>)
    requires Accounted(s) && Valid(s, es)
    ensures Accounted(Final(s, es)) && |Final(s, es).workers| == |s.workers|
    decreases |es|
  {
    if es != [] {
      AccountedStep(s, es[0]);
      RunAccounted(Apply(s, es[0]), es[1..]);
    }
  }

  /** At least one worker if there is a candidate, at most four, two unless asked otherwise. */
  lemma WorkersMean(count: nat, asked: int)
    ensures Workers(count, asked) <= count && Workers(count, asked) <= 4 && (count > 0 ==> Workers(count, asked) >= 1)
    ensures asked <= 0 && count >= 2 ==> Workers(count, asked) == 2
    ensures 1 <= asked <= 4 && asked <= count ==> Workers(count, asked) == asked
  {
  }

  /** A scan that ends without a winner, a timeout or a cancellation has tried every candidate. */
  lemma ScanExhaustive(count: nat, quorum: int, asked: int, es: seq<Event>, i: nat)
    requires Valid(Initial(count, quorum, asked), es) && i < count
    requires var s := Final(Initial(count, quorum, asked), es); Done(s) && !s.cancelled
    ensures Tried(Final(Initial(count, quorum, asked), es), i)
  {
    var s0 := Initial(count, quorum, asked);
    InitialInv(count, quorum, asked);
    RunInv(s0, es);
    RunKeeps(s0, es);
    RunAccounted(s0, es);
    WorkersMean(count, asked);
    var s := Final(s0, es);
    assert s.workers[0].Exited?;
    assert s.fed == count;
    assert forall w :: 0 <= w < |s.workers| ==> !Holds(s.workers[w], i);
  }

  lemma {:induction false} RunKeeps(s: Pool, es: seq<Event>)
    requires Valid(s, es)
    ensures Final(s, es).count == s.count && Final(s, es).quorum == s.quorum
    decreases |es|
  {
    if es != [] {
      RunKeeps(Apply(s, es[0]), es[1..]);
    }
  }
}
