/**
  The system DNS undo record of offveil-core/internal/dns/system.go and restore.go. The
  process may die after any durable write; the object below therefore keeps every durable
  state it passed through, and the methods promise something about each of them.
 */
module SystemDns {
  import opened Options
  import opened NetServices

  const STUB_IP: string := "127.0.0.1"

  /** Resolver setting of one network service. Setting an empty server list means DHCP. */
  datatype RawSetting = Dhcp | Static(servers: seq<string>)

  type Setting = s: RawSetting | s.Static? ==> s.servers != [] witness Dhcp

  datatype ServiceDNS = ServiceDNS(name: string, dns: seq<string>, dhcp: bool)

  /** net.ParseIP: the number of the address a text denotes, if it denotes one. */
  type Parser = string -> Option<nat>

  datatype Record = Record(stub: string, services: seq<ServiceDNS>)

  /** Everything that survives the process. */
  datatype Disk = Disk(settings: map<string, Setting>, record: Option<Record>)

  function Want(servers: seq<string>): Setting { if servers == [] then Dhcp else Static(servers) }

  /** The setting a record entry restores. */
  function Saved(e: ServiceDNS): Setting { Want(if e.dhcp then [] else e.dns) }

  function EntryFor(name: string, s: Setting): ServiceDNS {
    match s
    case Dhcp => ServiceDNS(name, [], true)
    case Static(servers) => ServiceDNS(name, servers, false)
  }

  function Entries(record: Option<Record>): seq<ServiceDNS> {
    match record
    case None => []
    case Some(r) => r.services
  }

  predicate Listed(name: string, entries: seq<ServiceDNS>) {
    exists i :: 0 <= i < |entries| && entries[i].name == name
  }

  ghost predicate HoldOriginals(entries: seq<ServiceDNS>, orig: map<string, Setting>) {
    forall i :: 0 <= i < |entries| ==> entries[i].name in orig && Saved(entries[i]) == orig[entries[i].name]
  }

  /** Every service has its original setting or is in the saved record, which holds only originals. */
  ghost predicate Recoverable(d: Disk, orig: map<string, Setting>) {
    && d.settings.Keys == orig.Keys
    && (forall n :: n in orig ==> d.settings[n] == orig[n] || Listed(n, Entries(d.record)))
    && HoldOriginals(Entries(d.record), orig)
  }

  /** What a reader of the disk alone would restore. */
  function Undone(d: Disk): map<string, Setting> {
    map n | n in d.settings :: UndoneOne(n, d.settings[n], Entries(d.record))
  }

  function UndoneOne(n: string, current: Setting, entries: seq<ServiceDNS>): Setting {
    if entries == [] then current
    else if entries[0].name == n then Saved(entries[0])
    else UndoneOne(n, current, entries[1..])
  }

  lemma {:induction false} UndoneOneExact(n: string, current: Setting, entries: seq<ServiceDNS>, want: Setting)
    requires current == want || Listed(n, entries)
    requires forall i :: 0 <= i < |entries| && entries[i].name == n ==> Saved(entries[i]) == want
    ensures UndoneOne(n, current, entries) == want
  {
    if entries != [] && entries[0].name != n {
      if Listed(n, entries) {
        var i :| 0 <= i < |entries| && entries[i].name == n;
        assert entries[1..][i - 1].name == n;
      }
      UndoneOneExact(n, current, entries[1..], want);
    }
  }

  /** The disk alone determines the original setting of every service. */
  lemma RecoverableDetermines(d: Disk, orig: map<string, Setting>)
    requires Recoverable(d, orig)
    ensures Undone(d) == orig
  {
    forall n | n in orig
      ensures Undone(d)[n] == orig[n]
    {
      UndoneOneExact(n, d.settings[n], Entries(d.record), orig[n]);
    }
  }

  /** a can be obtained from b by deleting entries. */
  predicate Subsequence(a: seq<ServiceDNS>, b: seq<ServiceDNS>) {
    if a == [] then true
    else if b == [] then false
    else if a[0] == b[0] then Subsequence(a[1..], b[1..])
    else Subsequence(a, b[1..])
  }

  /** The entries whose restore failed, in order. */
  function Failing(entries: seq<ServiceDNS>, failed: seq<bool>): (r: seq<ServiceDNS>)
    requires |failed| == |entries|
    ensures |r| <= |entries|
  {
    if entries == [] then []
    else (if failed[0] then [entries[0]] else []) + Failing(entries[1..], failed[1..])
  }

  lemma {:induction false} FailingSnoc(entries: seq<ServiceDNS>, failed: seq<bool>, e: ServiceDNS, f: bool)
    requires |failed| == |entries|
    ensures Failing(entries + [e], failed + [f]) == Failing(entries, failed) + if f then [e] else []
  {
    if entries == [] {
      assert entries + [e] == [e] && failed + [f] == [f];
      assert [e][1..] == [] && [f][1..] == [];
    } else {
      assert (entries + [e])[1..] == entries[1..] + [e] && (failed + [f])[1..] == failed[1..] + [f];
      FailingSnoc(entries[1..], failed[1..], e, f);
    }
  }

  lemma {:induction false} SubsequenceSkip(a: seq<ServiceDNS>, b: seq<ServiceDNS>, e: ServiceDNS)
    requires Subsequence(a, b)
    ensures Subsequence(a, [e] + b)
    decreases |b|, 1
  {
    assert ([e] + b)[1..] == b;
    if a != [] && a[0] == e {
      SubsequenceTail(a, b);
    }
  }

  lemma {:induction false} SubsequenceTail(a: seq<ServiceDNS>, b: seq<ServiceDNS>)
    requires Subsequence(a, b) && a != []
    ensures Subsequence(a[1..], b)
    decreases |b|, 0
  {
    if a[0] == b[0] {
      assert b == [b[0]] + b[1..];
      SubsequenceSkip(a[1..], b[1..], b[0]);
    } else {
      SubsequenceTail(a, b[1..]);
      assert b == [b[0]] + b[1..];
      SubsequenceSkip(a[1..], b[1..], b[0]);
    }
  }

  lemma {:induction false} FailingIsSubsequence(entries: seq<ServiceDNS>, failed: seq<bool>)
    requires |failed| == |entries|
    ensures Subsequence(Failing(entries, failed), entries)
  {
    if entries != [] {
      FailingIsSubsequence(entries[1..], failed[1..]);
      var rest := Failing(entries[1..], failed[1..]);
      if failed[0] {
        assert ([entries[0]] + rest)[1..] == rest;
      } else {
        assert [] + rest == rest;
        assert entries == [entries[0]] + entries[1..];
        SubsequenceSkip(rest, entries[1..], entries[0]);
      }
    }
  }

  /** A pass in which some call succeeds makes the list shorter, and only such a pass does. */
  lemma {:induction false} FailingShorter(entries: seq<ServiceDNS>, failed: seq<bool>)
    requires |failed| == |entries|
    ensures |Failing(entries, failed)| < |entries| <==> false in failed
    ensures Failing(entries, failed) == [] <==> true !in failed
  {
    if entries != [] {
      FailingShorter(entries[1..], failed[1..]);
      assert failed == [failed[0]] + failed[1..];
    }
  }

  /** What clearing leftovers did with one target. */
  datatype Outcome = Unread | Kept | Cleared | SetFailed

  /**
    One restore. With a record: the calls that failed and whether the record was then rewritten or
    removed. Without one, when armed: the services listed, what was done with each target and the number
    of the call each of them began with.
   */
  datatype Pass = Pass(loaded: bool, failed: seq<bool>, written: bool, listed: Option<seq<HwService>>, outcomes: seq<Outcome>, times: seq<nat>)

  // ------------------------------------------------------------- the record over many passes

  function AfterPass(record: Option<Record>, pass: Pass): Option<Record> {
    if record.None? || !pass.loaded || !pass.written || |pass.failed| != |record.value.services| then record
    else
      var pending := Failing(record.value.services, pass.failed);
      if pending == [] then None else Some(record.value.(services := pending))
  }

  function AfterPasses(record: Option<Record>, passes: seq<Pass>): Option<Record> {
    if passes == [] then record else AfterPass(AfterPasses(record, passes[..|passes| - 1]), passes[|passes| - 1])
  }

  /** The record could be read, some service could be set if there was one, and the record could be replaced. */
  predicate Helps(record: Option<Record>, pass: Pass) {
    && record.Some? && pass.loaded && pass.written && |pass.failed| == |record.value.services|
    && (record.value.services == [] || false in pass.failed)
  }

  function HelpfulPasses(record: Option<Record>, passes: seq<Pass>): nat {
    if passes == [] then 0
    else
      var before := passes[..|passes| - 1];
      HelpfulPasses(record, before) + if Helps(AfterPasses(record, before), passes[|passes| - 1]) then 1 else 0
  }

  /** How many helpful passes a record can take at most. */
  function Needed(record: Option<Record>): nat {
    if record.None? then 0 else if record.value.services == [] then 1 else |record.value.services|
  }

  lemma PassProgress(record: Option<Record>, pass: Pass)
    ensures Needed(AfterPass(record, pass)) + (if Helps(record, pass) then 1 else 0) <= Needed(record)
    ensures !Helps(record, pass) ==> AfterPass(record, pass) == record
  {
    if record.Some? && |pass.failed| == |record.value.services| {
      FailingShorter(record.value.services, pass.failed);
      if !Helps(record, pass) {
        AllFailing(record.value.services, pass.failed);
      }
    }
  }

  lemma {:induction false} AllFailing(entries: seq<ServiceDNS>, failed: seq<bool>)
    requires |failed| == |entries|
    ensures false !in failed ==> Failing(entries, failed) == entries
  {
    if entries != [] {
      AllFailing(entries[1..], failed[1..]);
      assert failed == [failed[0]] + failed[1..];
    }
  }

  /** Each helpful pass brings the end closer, no pass takes it further away, and only helpful ones change anything. */
  lemma {:induction false} RetriesConverge(record: Option<Record>, passes: seq<Pass>)
    ensures Needed(AfterPasses(record, passes)) + HelpfulPasses(record, passes) <= Needed(record)
    ensures HelpfulPasses(record, passes) >= Needed(record) ==> AfterPasses(record, passes) == None
    ensures HelpfulPasses(record, passes) == 0 ==> AfterPasses(record, passes) == record
  {
    if passes != [] {
      var before := passes[..|passes| - 1];
      RetriesConverge(record, before);
      PassProgress(AfterPasses(record, before), passes[|passes| - 1]);
    }
  }

  // ------------------------------------------------------------------ clearing leftovers

  /** Only the default stub address, in whatever spelling. */
  predicate OnlyStub(s: Setting, parse: Parser) {
    s.Static? && forall i :: 0 <= i < |s.servers| ==> parse(s.servers[i]).Some? && parse(s.servers[i]) == parse(STUB_IP)
  }

  /** A flush in which every call succeeds. */
  function Flushed(settings: map<string, Setting>, services: seq<HwService>, parse: Parser): map<string, Setting> {
    map n | n in settings :: if Steered(n, services) && OnlyStub(settings[n], parse) then Dhcp else settings[n]
  }

  /** Every call for this service was made and succeeded. */
  predicate Smooth(name: string, targets: seq<HwService>, outcomes: seq<Outcome>)
    requires |outcomes| == |targets|
  {
    forall i :: 0 <= i < |targets| && targets[i].name == name ==> outcomes[i].Kept? || outcomes[i].Cleared?
  }

  /**
    What clearing makes of the settings, target by target: nothing but stub-only targets changes, a
    cleared one is on DHCP, and a stub-only target whose calls all worked is cleared.
   */
  ghost predicate Swept(orig: map<string, Setting>, now: map<string, Setting>, targets: seq<HwService>, outcomes: seq<Outcome>, parse: Parser)
    requires |outcomes| == |targets|
  {
    && now.Keys == orig.Keys
    && (forall n :: n in orig && now[n] != orig[n] ==> OnlyStub(orig[n], parse) && Named(n, targets))
    && (forall i :: 0 <= i < |targets| && outcomes[i].Cleared? ==> targets[i].name in now && now[targets[i].name] == Dhcp)
    && (forall n :: n in orig && Named(n, targets) && Smooth(n, targets, outcomes) && OnlyStub(orig[n], parse) ==> now[n] == Dhcp)
  }

  /** One more target, with what the platform answered for it. */
  ghost predicate Swipe(before: map<string, Setting>, after: map<string, Setting>, name: string, o: Outcome, parse: Parser) {
    match o
    case Unread => after == before
    case Kept => after == before && name in before && !OnlyStub(before[name], parse)
    case Cleared => name in before && OnlyStub(before[name], parse) && after == before[name := Dhcp]
    case SetFailed =>
      && name in before && OnlyStub(before[name], parse) && after.Keys == before.Keys
      && forall n :: n in before && n != name ==> after[n] == before[n]
  }

  lemma NamedMore(targets: seq<HwService>, t: HwService, n: string)
    ensures Named(n, targets + [t]) <==> Named(n, targets) || t.name == n
  {
    var all := targets + [t];
    if Named(n, targets) {
      var i :| 0 <= i < |targets| && targets[i].name == n;
      assert all[i].name == n;
    }
    assert all[|targets|] == t;
  }

  lemma SmoothMore(targets: seq<HwService>, outcomes: seq<Outcome>, t: HwService, o: Outcome, n: string)
    requires |outcomes| == |targets|
    ensures Smooth(n, targets + [t], outcomes + [o]) <==> Smooth(n, targets, outcomes) && (t.name == n ==> o.Kept? || o.Cleared?)
  {
    var all, done := targets + [t], outcomes + [o];
    assert all[|targets|] == t && done[|targets|] == o;
    assert forall i :: 0 <= i < |targets| ==> all[i] == targets[i] && done[i] == outcomes[i];
  }

  lemma SweptMore(orig: map<string, Setting>, before: map<string, Setting>, after: map<string, Setting>, targets: seq<HwService>,
                  outcomes: seq<Outcome>, t: HwService, o: Outcome, parse: Parser)
    requires |outcomes| == |targets| && Swept(orig, before, targets, outcomes, parse) && Swipe(before, after, t.name, o, parse)
    ensures Swept(orig, after, targets + [t], outcomes + [o], parse)
  {
    var all, done := targets + [t], outcomes + [o];
    forall n | n in orig && after[n] != orig[n]
      ensures OnlyStub(orig[n], parse) && Named(n, all)
    {
      NamedMore(targets, t, n);
    }
    forall n | n in orig && Named(n, all) && Smooth(n, all, done) && OnlyStub(orig[n], parse)
      ensures after[n] == Dhcp
    {
      NamedMore(targets, t, n);
      SmoothMore(targets, outcomes, t, o, n);
    }
  }

  /** When every call worked, clearing loses a setting exactly where a steered service pointed at the stub only. */
  lemma SweptSmooth(orig: map<string, Setting>, now: map<string, Setting>, listed: seq<HwService>, outcomes: seq<Outcome>, parse: Parser)
    requires |outcomes| == |Targets(listed)| && Swept(orig, now, Targets(listed), outcomes, parse)
    requires forall i :: 0 <= i < |outcomes| ==> outcomes[i].Kept? || outcomes[i].Cleared?
    ensures now == Flushed(orig, listed, parse)
    ensures now == orig <==> forall n :: n in orig && Steered(n, listed) ==> !OnlyStub(orig[n], parse)
  {
    forall n | n in orig
      ensures now[n] == Flushed(orig, listed, parse)[n]
    {
      TargetsExact(listed, n);
    }
    FlushedSame(orig, listed, parse);
  }

  lemma FlushedSame(orig: map<string, Setting>, listed: seq<HwService>, parse: Parser)
    ensures Flushed(orig, listed, parse) == orig <==> forall n :: n in orig && Steered(n, listed) ==> !OnlyStub(orig[n], parse)
  {
    if n :| n in orig && Steered(n, listed) && OnlyStub(orig[n], parse) {
      assert Flushed(orig, listed, parse)[n] == Dhcp;
    }
  }

  class System {
    var settings: map<string, Setting>
    var record: Option<Record>
    const parse: Parser
    const fate: nat -> bool                // whether the platform call with this number succeeds
    const offered: nat -> seq<HwService>   // what it lists, if it lists services
    const debris: nat -> Setting           // what it leaves behind, if it sets a service and fails
    var clock: nat                         // platform calls made so far
    var history: seq<Disk>                 // every durable state so far, a recorder of the model

    function Now(): Disk
      reads this
    {
      Disk(settings, record)
    }

    /** Every durable state after position `from`, including the current one, can be undone. */
    ghost predicate SafeSince(from: nat, orig: map<string, Setting>)
      reads this
    {
      && Recoverable(Now(), orig)
      && from <= |history|
      && (forall i :: from <= i < |history| ==> Recoverable(history[i], orig))
    }

    constructor (settings: map<string, Setting>, parse: Parser, fate: nat -> bool, offered: nat -> seq<HwService>, debris: nat -> Setting)
      ensures this.settings == settings && this.parse == parse && record == None && history == []
      ensures this.fate == fate && this.offered == offered && this.debris == debris && clock == 0
    {
      this.settings, record, this.parse, history := settings, None, parse, [];
      this.fate, this.offered, this.debris, clock := fate, offered, debris, 0;
    }

    // ------------------------------------------- the platform, which may fail

    method Tick() returns (ok: bool)
      modifies this`clock
      ensures clock == old(clock) + 1 && ok == fate(old(clock))
    {
      ok := fate(clock);
      clock := clock + 1;
    }

    method ListServices() returns (r: Option<seq<HwService>>)
      modifies this`clock
      ensures clock == old(clock) + 1 && r == if fate(old(clock)) then Some(offered(old(clock))) else None
    {
      var ok := Tick();
      r := if ok then Some(offered(clock - 1)) else None;
    }

    method GetDNS(name: string) returns (r: Option<Setting>)
      modifies this`clock
      ensures clock == old(clock) + 1
      ensures r == if name in settings && fate(old(clock)) then Some(settings[name]) else None
    {
      var ok := Tick();
      r := if name in settings && ok then Some(settings[name]) else None;
    }

    /** A failed call may leave any setting behind, but only on its own service. */
    method SetDNS(name: string, servers: seq<string>) returns (ok: bool)
      modifies this`settings, this`clock, this`history
      ensures clock == old(clock) + 1 && ok == (name in settings && fate(old(clock))) && history == old(history) + [Now()] && record == old(record)
      ensures settings.Keys == old(settings).Keys
      ensures forall n :: n in settings && n != name ==> settings[n] == old(settings)[n]
      ensures name in settings ==> settings[name] == if ok then Want(servers) else debris(old(clock))
    {
      ok := Tick();
      ok := ok && name in settings;
      if ok {
        settings := settings[name := Want(servers)];
      } else if name in settings {
        settings := settings[name := debris(clock - 1)];
      }
      history := history + [Now()];
    }

    /** The record is replaced by a rename, so it is either the old or the new one. */
    method Save(r: Record) returns (ok: bool)
      modifies this`record, this`clock, this`history
      ensures clock == old(clock) + 1 && ok == fate(old(clock)) && history == old(history) + [Now()] && settings == old(settings)
      ensures record == if ok then Some(r) else old(record)
    {
      ok := Tick();
      if ok {
        record := Some(r);
      }
      history := history + [Now()];
    }

    method Clear() returns (ok: bool)
      modifies this`record, this`clock, this`history
      ensures clock == old(clock) + 1 && ok == fate(old(clock)) && history == old(history) + [Now()] && settings == old(settings)
      ensures record == if ok then None else old(record)
    {
      ok := Tick();
      if ok {
        record := None;
      }
      history := history + [Now()];
    }

    method Load() returns (ok: bool, r: Option<Record>)
      modifies this`clock
      ensures clock == old(clock) + 1 && ok == fate(old(clock)) && (ok ==> r == record)
    {
      ok := Tick();
      r := if ok then record else None;
    }

    /** Which of the n calls from `start` on fail. */
    ghost function Fails(start: nat, n: nat): (r: seq<bool>)
      ensures |r| == n
    {
      if n == 0 then [] else Fails(start, n - 1) + [!fate(start + n - 1)]
    }

    /** The calls from `start` on failed exactly as listed. */
    ghost predicate Failed(failed: seq<bool>, start: nat) {
      forall i :: 0 <= i < |failed| ==> failed[i] == !fate(start + i)
    }

    lemma {:induction false} FailsIs(failed: seq<bool>, start: nat)
      requires Failed(failed, start)
      ensures failed == Fails(start, |failed|)
    {
      if failed != [] {
        var n := |failed| - 1;
        FailsIs(failed[..n], start);
        assert failed == failed[..n] + [failed[n]];
      }
    }

    ghost predicate AllWork(from: nat, to: nat) { forall k :: from <= k < to ==> fate(k) }

    lemma AllDone(at: nat, n: nat)
      ensures fate(at) && true !in Fails(at + 1, n) && fate(at + 1 + n) <==> AllWork(at, at + n + 2)
    {
      NoneFails(at + 1, n);
    }

    lemma {:induction false} NoneFails(start: nat, n: nat)
      ensures true !in Fails(start, n) <==> AllWork(start, start + n)
    {
      if n > 0 {
        NoneFails(start, n - 1);
        assert AllWork(start, start + n) <==> AllWork(start, start + n - 1) && fate(start + n - 1);
      }
    }

    // ------------------------------------------------------------ operations

    method Snapshot(targets: seq<HwService>, ghost orig: map<string, Setting>) returns (r: Option<seq<ServiceDNS>>)
      requires settings == orig
      modifies this`clock
      ensures r.Some? ==> Snapped(r.value, targets, orig) && clock == old(clock) + |targets|
      ensures r.Some? <==> (forall i :: 0 <= i < |targets| ==> targets[i].name in orig) && AllWork(old(clock), old(clock) + |targets|)
    {
      var services: seq<ServiceDNS> := [];
      for i := 0 to |targets|
        invariant Snapped(services, targets[..i], orig) && clock == old(clock) + i
        invariant (forall k :: 0 <= k < i ==> targets[k].name in orig) && AllWork(old(clock), clock)
      {
        var s := GetDNS(targets[i].name);
        if s.None? {
          return None;
        }
        services := services + [EntryFor(targets[i].name, s.value)];
      }
      assert targets[..|targets|] == targets;
      r := Some(services);
    }

    /** Setting a service that is in the record is safe, whether or not the call succeeds. */
    method SetRecorded(name: string, servers: seq<string>, ghost from: nat, ghost orig: map<string, Setting>) returns (done: bool)
      requires SafeSince(from, orig) && Listed(name, Entries(record))
      modifies this`settings, this`clock, this`history
      ensures SafeSince(from, orig) && history == old(history) + [Now()] && clock == old(clock) + 1 && record == old(record)
      ensures settings.Keys == old(settings).Keys && done == fate(old(clock))
      ensures forall n :: n in settings && n != name ==> settings[n] == old(settings)[n]
      ensures done ==> name in settings && settings[name] == Want(servers)
    {
      ghost var before := Now();
      done := SetDNS(name, servers);
      StillRecoverable(before, Now(), name, orig);
    }

    method PointAll(services: seq<ServiceDNS>, stub: string, ghost orig: map<string, Setting>) returns (applied: nat, ghost failed: seq<bool>)
      requires Recoverable(Now(), orig) && Entries(record) == services
      modifies this`settings, this`clock, this`history
      ensures SafeSince(|old(history)|, orig) && old(history) <= history && record == old(record)
      ensures |failed| == |services| && LastCalls(settings, services, failed, Some(stub))
      ensures Failed(failed, old(clock)) && clock == old(clock) + |services|
      ensures applied > 0 <==> false in failed
    {
      applied, failed := 0, [];
      ghost var from, start := |history|, clock;
      for i := 0 to |services|
        invariant |failed| == i && Failed(failed, start) && clock == start + i && record == old(record)
        invariant SafeSince(from, orig) && old(history) <= history
        invariant applied > 0 <==> false in failed
        invariant LastCalls(settings, services[..i], failed, Some(stub))
      {
        applied, failed := PointOne(services, i, stub, applied, failed, start, from, orig);
      }
      assert services[..|services|] == services;
    }

    method PointAllAt(services: seq<ServiceDNS>, stub: string, ghost orig: map<string, Setting>) returns (applied: nat)
      requires Recoverable(Now(), orig) && Entries(record) == services
      modifies this`settings, this`clock, this`history
      ensures SafeSince(|old(history)|, orig) && old(history) <= history && record == old(record) && clock == old(clock) + |services|
      ensures LastCalls(settings, services, Fails(old(clock), |services|), Some(stub)) && (applied > 0 <==> false in Fails(old(clock), |services|))
    {
      ghost var failed;
      applied, failed := PointAll(services, stub, orig);
      FailsIs(failed, old(clock));
    }

    method PointOne(services: seq<ServiceDNS>, i: nat, stub: string, applied: nat, ghost failed: seq<bool>, ghost start: nat, ghost from: nat,
                    ghost orig: map<string, Setting>) returns (more: nat, ghost all: seq<bool>)
      requires SafeSince(from, orig) && Entries(record) == services && i < |services| && |failed| == i
      requires LastCalls(settings, services[..i], failed, Some(stub)) && Failed(failed, start) && clock == start + i && (applied > 0 <==> false in failed)
      modifies this`settings, this`clock, this`history
      ensures SafeSince(from, orig) && old(history) <= history && record == old(record)
      ensures |all| == i + 1 && Failed(all, start) && clock == start + i + 1 && (more > 0 <==> false in all)
      ensures LastCalls(settings, services[..i + 1], all, Some(stub))
    {
      ghost var before := settings;
      assert Entries(record)[i].name == services[i].name;
      var done := SetRecorded(services[i].name, [stub], from, orig);
      LastCallsSnoc(before, settings, services[..i], failed, Some(stub), services[i], !done);
      assert services[..i + 1] == services[..i] + [services[i]];
      more, all := applied, failed + [!done];
      if done {
        more := more + 1;
      }
    }

    method WriteBack(services: seq<ServiceDNS>, ghost orig: map<string, Setting>) returns (pending: seq<ServiceDNS>, ghost failed: seq<bool>)
      requires Recoverable(Now(), orig) && Entries(record) == services
      modifies this`settings, this`clock, this`history
      ensures SafeSince(|old(history)|, orig) && old(history) <= history && record == old(record)
      ensures Failed(failed, old(clock)) && clock == old(clock) + |services|
      ensures |failed| == |services| && LastCalls(settings, services, failed, None)
      ensures pending == Failing(services, failed) && OnlyPending(settings, pending, orig)
    {
      pending, failed := [], [];
      ghost var from := |history|;
      ghost var start := clock;
      WrittenNone(Now(), orig);
      for i := 0 to |services|
        invariant SafeSince(from, orig) && old(history) <= history && record == old(record)
        invariant Failed(failed, start) && clock == start + i
        invariant Written(settings, services, i, failed, pending, orig)
      {
        pending, failed := WriteOne(services, i, pending, failed, start, from, orig);
      }
      WrittenAll(settings, services, failed, pending, orig);
    }

    method WriteOne(services: seq<ServiceDNS>, i: nat, pending: seq<ServiceDNS>, ghost failed: seq<bool>,
                    ghost start: nat, ghost from: nat, ghost orig: map<string, Setting>)
      returns (left: seq<ServiceDNS>, ghost all: seq<bool>)
      requires SafeSince(from, orig) && Entries(record) == services && i < |services| && Written(settings, services, i, failed, pending, orig)
      requires Failed(failed, start) && clock == start + i
      modifies this`settings, this`clock, this`history
      ensures SafeSince(from, orig) && old(history) <= history && record == old(record)
      ensures Failed(all, start) && clock == start + i + 1 && Written(settings, services, i + 1, all, left, orig)
    {
      ghost var before := settings;
      var svc := services[i];
      var servers := if svc.dhcp then [] else svc.dns;
      assert Entries(record)[i].name == svc.name;
      var done := SetRecorded(svc.name, servers, from, orig);
      left := pending;
      if !done {
        left := left + [svc];
      }
      all := failed + [!done];
      WrittenStep(before, settings, services, i, failed, pending, orig, done);
    }

    /** The calls before the record is written: it could be read, the services could be listed and each target read. */
    ghost predicate Readable(at: nat, orig: map<string, Setting>) {
      var targets := Targets(offered(at + 1));
      && fate(at) && fate(at + 1) && targets != [] && AllWork(at + 2, at + 2 + |targets|)
      && forall i :: 0 <= i < |targets| ==> targets[i].name in orig
    }

    /**
      Points every steered service at the stub, after writing the undo record. With n targets the calls
      are: read the record, list the services, read n settings, write the record, set n services, and
      restore if none could be set.
     */
    method Apply(stub: string, ghost orig: map<string, Setting>) returns (ok: bool, ghost entries: seq<ServiceDNS>)
      requires Recoverable(Now(), orig)
      modifies this`settings, this`record, this`clock, this`history
      ensures SafeSince(|old(history)|, orig) && old(history) <= history
      ensures var at, targets := old(clock), Targets(offered(old(clock) + 1));
              var ip := if stub == "" then "127.0.0.1" else stub;
              if parse(ip).None? || Entries(old(record)) != [] || !Readable(at, orig)
              then !ok && Now() == old(Now()) && history == old(history)
              else Snapped(entries, targets, orig) && Steers(ok, ip, entries, at + 2 + |targets|, old(record))
    {
      var ip := if stub == "" then STUB_IP else stub;
      ok, entries := ApplyAt(ip, orig);
    }

    method ApplyAt(ip: string, ghost orig: map<string, Setting>) returns (ok: bool, ghost entries: seq<ServiceDNS>)
      requires Recoverable(Now(), orig)
      modifies this`settings, this`record, this`clock, this`history
      ensures SafeSince(|old(history)|, orig) && old(history) <= history
      ensures if parse(ip).None? || Entries(old(record)) != [] || !Readable(old(clock), orig)
              then !ok && Now() == old(Now()) && history == old(history)
              else && Snapped(entries, Targets(offered(old(clock) + 1)), orig)
                   && Steers(ok, ip, entries, old(clock) + 2 + |Targets(offered(old(clock) + 1))|, old(record))
    {
      ok, entries := false, [];
      if parse(ip).None? {
        return;
      }
      var loaded, previous := Load();
      if !loaded || Entries(previous) != [] {
        return;
      }
      assert settings == orig;
      ok, entries := Survey(ip, orig);
    }

    method Survey(ip: string, ghost orig: map<string, Setting>) returns (ok: bool, ghost entries: seq<ServiceDNS>)
      requires settings == orig && Entries(record) == []
      modifies this`settings, this`record, this`clock, this`history
      ensures SafeSince(|old(history)|, orig) && old(history) <= history
      ensures var at, targets := old(clock), Targets(offered(old(clock)));
              if && fate(at) && targets != [] && AllWork(at + 1, at + 1 + |targets|) && forall i :: 0 <= i < |targets| ==> targets[i].name in orig
              then Snapped(entries, targets, orig) && Steers(ok, ip, entries, at + 1 + |targets|, old(record))
              else !ok && Now() == old(Now()) && history == old(history)
    {
      ok, entries := false, [];
      var all := ListServices();
      if all.None? {
        return;
      }
      var targets := Targets(all.value);
      if |targets| == 0 {
        return;
      }
      var snap := Snapshot(targets, orig);
      if snap.None? {
        return;
      }
      entries := snap.value;
      ok := Steer(ip, snap.value, orig);
    }

    /**
      Steering these services, starting with the call `at`: without a written record nothing changes;
      with one, success means that some service could be set, and those that could point at the stub;
      otherwise they were restored from the record just written.
     */
    ghost predicate Steers(ok: bool, ip: string, services: seq<ServiceDNS>, at: nat, was: Option<Record>)
      reads this
    {
      var n := |services|;
      if !fate(at) then !ok && record == was
      else if false !in Fails(at + 1, n) then !ok && record == AfterPass(Some(Record(ip, services)), PassAt(at + 1 + n, n)) && clock == Over(at + 1 + n, n)
      else ok && Arrived(ip, services, at + 1)
    }

    lemma SteersMeans(ok: bool, ip: string, services: seq<ServiceDNS>, at: nat, was: Option<Record>)
      requires Steers(ok, ip, services, at, was) && fate(at) && false in Fails(at + 1, |services|)
      ensures ok && Arrived(ip, services, at + 1)
    {
    }

    /** The record is written and each service whose call, from `start` on, worked points at the stub. */
    ghost predicate Arrived(ip: string, services: seq<ServiceDNS>, start: nat)
      reads this
    {
      && record == Some(Record(ip, services)) && clock == start + |services|
      && LastCalls(settings, services, Fails(start, |services|), Some(ip))
    }

    /** A restore of n services that starts with the call `at`: what each call came to, and the first call after it. */
    ghost function PassAt(at: nat, n: nat): Pass {
      if fate(at) then Pass(true, Fails(at + 1, n), fate(at + 1 + n), None, [], []) else Pass(false, [], false, None, [], [])
    }

    ghost function Over(at: nat, n: nat): nat { if fate(at) then at + n + 2 else at + 1 }

    /** The durable half of applying: the record first, then the services; all failing means restoring. */
    method Steer(ip: string, services: seq<ServiceDNS>, ghost orig: map<string, Setting>) returns (ok: bool)
      requires settings == orig && HoldOriginals(services, orig) && Entries(record) == []
      modifies this`settings, this`record, this`clock, this`history
      ensures SafeSince(|old(history)|, orig) && old(history) <= history
      ensures Steers(ok, ip, services, old(clock), old(record)) && (!fate(old(clock)) ==> settings == orig)
    {
      var saved := Save(Record(ip, services));
      if !saved {
        return false;
      }
      var applied := PointAllAt(services, ip, orig);
      if applied == 0 {
        GiveBack(orig);
        return false;
      }
      return true;
    }

    /** What a restore does with the record that was just written. */
    method GiveBack(ghost orig: map<string, Setting>)
      requires Recoverable(Now(), orig) && record.Some?
      modifies this`settings, this`record, this`clock, this`history
      ensures old(history) <= history && SafeSince(|old(history)|, orig)
      ensures record == AfterPass(old(record), PassAt(old(clock), |Entries(old(record))|)) && clock == Over(old(clock), |Entries(old(record))|)
    {
      var _, _ := Restore(true, false, orig);
    }

    /**
      What restoring from this record comes to, starting with the call `at`: success exactly when every
      call works, and then the settings are the original ones and the record is gone.
     */
    ghost predicate FromRecord(ok: bool, pass: Pass, snap: Record, at: nat, from: nat, orig: map<string, Setting>)
      reads this
    {
      && SafeSince(from, orig) && clock == Over(at, |snap.services|) && Comes(ok, pass, snap, at, record) && (ok ==> settings == orig)
      && (pass.loaded ==> |pass.failed| == |snap.services| && LastCalls(settings, snap.services, pass.failed, None))
    }

    ghost predicate Comes(ok: bool, pass: Pass, snap: Record, at: nat, after: Option<Record>) {
      var n := |snap.services|;
      && pass == PassAt(at, n) && after == AfterPass(Some(snap), pass) && Subsequence(Entries(after), snap.services)
      && (ok <==> after == None) && (ok <==> AllWork(at, at + n + 2))
    }

    lemma ReplayRecord(snap: Record, pending: seq<ServiceDNS>, failed: seq<bool>, written: bool, after: Option<Record>, orig: map<string, Setting>)
      requires HoldOriginals(snap.services, orig) && |failed| == |snap.services| && pending == Failing(snap.services, failed)
      requires after == if !written then Some(snap) else if pending == [] then None else Some(snap.(services := pending))
      ensures after == AfterPass(Some(snap), Pass(true, failed, written, None, [], [])) && Subsequence(Entries(after), snap.services)
      ensures after == None <==> written && true !in failed
    {
      PendingMeans(snap.services, failed, orig);
    }

    lemma ShowReplay(snap: Record, pending: seq<ServiceDNS>, failed: seq<bool>, at: nat, after: Option<Record>, orig: map<string, Setting>)
      requires fate(at) && HoldOriginals(snap.services, orig) && |failed| == |snap.services| && Failed(failed, at + 1) && pending == Failing(snap.services, failed)
      requires after == if !fate(at + 1 + |snap.services|) then Some(snap) else if pending == [] then None else Some(snap.(services := pending))
      ensures Comes(after == None, Pass(true, failed, fate(at + 1 + |snap.services|), None, [], []), snap, at, after)
    {
      FailsIs(failed, at + 1);
      ReplayRecord(snap, pending, failed, fate(at + 1 + |snap.services|), after, orig);
      AllDone(at, |snap.services|);
    }

    /** Writes the saved settings back; what could not be written stays in the record. */
    method Restore(armed: bool, stubUp: bool, ghost orig: map<string, Setting>) returns (ok: bool, ghost pass: Pass)
      requires Recoverable(Now(), orig)
      modifies this`settings, this`record, this`clock, this`history
      ensures old(history) <= history && pass.loaded == fate(old(clock))
      ensures !pass.loaded ==> !ok && Now() == old(Now()) && history == old(history)
      ensures old(record).Some? ==> FromRecord(ok, pass, old(record).value, old(clock), |old(history)|, orig)
      ensures old(record).Some? || !armed ==> pass.listed.None?
      ensures old(record).None? && pass.loaded && armed ==> pass.listed == if fate(old(clock) + 1) then Some(offered(old(clock) + 1)) else None
      ensures old(record).None? && pass.listed.None? ==> Now() == old(Now()) && history == old(history)
      ensures old(record).None? && pass.loaded && pass.listed.None? ==> ok == !armed
      ensures old(record).None? && pass.listed.Some? ==> Flushes(|old(history)|, orig, pass) && Sweeps(pass, old(clock) + 2, orig)
      ensures old(record).None? && pass.loaded && pass.listed.Some? ==> (ok <==> SetFailed !in pass.outcomes)
    {
      pass := Pass(false, [], false, None, [], []);
      SubsequenceSelf(Entries(record));
      var loaded, snap := Load();
      if !loaded {
        return false, pass;
      }
      if snap.Some? {
        ok, pass := Replay(snap.value, old(clock), orig);
        return;
      }
      ok, pass := true, pass.(loaded := true);
      if armed {
        ok, pass := FlushLeftover(armed, stubUp, orig);
      }
    }

    /** Restoring from a record: write everything back, then keep what is pending or clear the record. */
    method Replay(snap: Record, ghost at: nat, ghost orig: map<string, Setting>) returns (ok: bool, ghost pass: Pass)
      requires Recoverable(Now(), orig) && record == Some(snap) && fate(at) && clock == at + 1
      modifies this`settings, this`record, this`clock, this`history
      ensures old(history) <= history && FromRecord(ok, pass, snap, at, |old(history)|, orig)
    {
      var pending, written;
      ghost var failed;
      pending, written, failed := Rewrite(snap, orig);
      ok := |pending| == 0 && written;
      pass := Pass(true, failed, written, None, [], []);
      ShowReplay(snap, pending, failed, at, record, orig);
    }

    method Rewrite(snap: Record, ghost orig: map<string, Setting>) returns (pending: seq<ServiceDNS>, written: bool, ghost failed: seq<bool>)
      requires Recoverable(Now(), orig) && record == Some(snap)
      modifies this`settings, this`record, this`clock, this`history
      ensures old(history) <= history && SafeSince(|old(history)|, orig) && clock == old(clock) + |snap.services| + 1
      ensures |failed| == |snap.services| && Failed(failed, old(clock)) && written == fate(old(clock) + |snap.services|)
      ensures pending == Failing(snap.services, failed) && LastCalls(settings, snap.services, failed, None) && (pending == [] ==> settings == orig)
      ensures record == if !written then Some(snap) else if pending == [] then None else Some(snap.(services := pending))
    {
      pending, failed := WriteBack(snap.services, orig);
      FailingEntries(snap.services, failed, orig);
      if pending == [] {
        NothingPending(settings, orig);
      }
      written := Settle(snap, pending, |old(history)|, orig);
    }

    method Settle(snap: Record, pending: seq<ServiceDNS>, ghost from: nat, ghost orig: map<string, Setting>) returns (written: bool)
      requires SafeSince(from, orig) && record == Some(snap) && HoldOriginals(pending, orig)
      requires OnlyPending(settings, pending, orig)
      modifies this`record, this`clock, this`history
      ensures SafeSince(from, orig) && history == old(history) + [Now()] && settings == old(settings) && written == fate(old(clock)) && clock == old(clock) + 1
      ensures record == if !written then Some(snap) else if pending == [] then None else Some(snap.(services := pending))
    {
      if |pending| > 0 {
        written := Save(snap.(services := pending));
      } else {
        written := Clear();
      }
    }

    /** The outcomes of these targets, whose calls began at these times, one after the other from `start` on. */
    ghost predicate Timed(targets: seq<HwService>, outcomes: seq<Outcome>, times: seq<nat>, start: nat, orig: map<string, Setting>) {
      && |outcomes| <= |targets| && |times| == |outcomes| + 1 && times[0] == start
      && forall i {:trigger outcomes[i]} :: 0 <= i < |outcomes| ==> Fits(targets[i], outcomes[i], times[i], orig) && times[i + 1] == times[i] + Calls(outcomes[i])
    }

    ghost function Calls(o: Outcome): nat { if o.Cleared? || o.SetFailed? then 2 else 1 }

    /** Each outcome is what the calls for its target, beginning with number `start`, came to. */
    ghost predicate Sweeps(pass: Pass, start: nat, orig: map<string, Setting>) {
      && pass.listed.Some? && |pass.outcomes| == |Targets(pass.listed.value)|
      && Timed(Targets(pass.listed.value), pass.outcomes, pass.times, start, orig)
    }

    /** The outcome of a target whose calls begin with number `at`: one to read it, one to set it if it has the stub only. */
    ghost predicate Fits(target: HwService, o: Outcome, at: nat, orig: map<string, Setting>) {
      && (o.Unread? <==> !(target.name in orig && fate(at)))
      && (o.Cleared? ==> fate(at + 1)) && (o.SetFailed? ==> !fate(at + 1))
    }

    /** Since `from` the disk had no record and only stub-only targets were touched, as the pass says. */
    ghost predicate Flushes(from: nat, orig: map<string, Setting>, pass: Pass)
      reads this
    {
      && pass.loaded && pass.listed.Some? && |pass.outcomes| == |Targets(pass.listed.value)| && record == None
      && Swept(orig, settings, Targets(pass.listed.value), pass.outcomes, parse)
      && SparedSince(from, orig, Targets(pass.listed.value))
    }

    /** Clears services that still point at the default stub address and nothing else. */
    method FlushLeftover(armed: bool, stubUp: bool, ghost orig: map<string, Setting>) returns (ok: bool, ghost pass: Pass)
      requires record == None && settings == orig
      modifies this`settings, this`clock, this`history
      ensures old(history) <= history && pass.loaded
      ensures pass.listed == if (armed || !stubUp) && fate(old(clock)) then Some(offered(old(clock))) else None
      ensures pass.listed.None? ==> Now() == old(Now()) && history == old(history) && ok == (!armed && stubUp)
      ensures pass.listed.Some? ==> Flushes(|old(history)|, orig, pass) && Sweeps(pass, old(clock) + 1, orig) && (ok <==> SetFailed !in pass.outcomes)
      ensures pass.listed.Some? && ok && Unread !in pass.outcomes ==>
                && settings == Flushed(orig, pass.listed.value, parse)
                && (settings == orig <==> forall n :: n in orig && Steered(n, pass.listed.value) ==> !OnlyStub(orig[n], parse))
    {
      pass := Pass(true, [], false, None, [], []);
      if !armed && stubUp {
        return true, pass;
      }
      var listed := ListServices();
      if listed.None? {
        return false, pass;
      }
      var targets := Targets(listed.value);
      ghost var outcomes, times;
      ok, outcomes, times := Sweep(targets, orig);
      pass := Pass(true, [], false, listed, outcomes, times);
      if ok && Unread !in outcomes {
        SweptSmooth(orig, settings, listed.value, outcomes, parse);
      }
    }

    method Sweep(targets: seq<HwService>, ghost orig: map<string, Setting>) returns (ok: bool, ghost outcomes: seq<Outcome>, ghost times: seq<nat>)
      requires record == None && settings == orig
      modifies this`settings, this`clock, this`history
      ensures old(history) <= history && |outcomes| == |targets| && Timed(targets, outcomes, times, old(clock), orig) && record == old(record)
      ensures Swept(orig, settings, targets, outcomes, parse) && (ok <==> SetFailed !in outcomes)
      ensures SparedSince(|old(history)|, orig, targets)
    {
      ok, outcomes, times := true, [], [clock];
      ghost var start, from := clock, |history|;
      for i := 0 to |targets|
        invariant old(history) <= history && |outcomes| == i && record == old(record)
        invariant Timed(targets, outcomes, times, start, orig) && times[i] == clock
        invariant Swept(orig, settings, targets[..i], outcomes, parse) && (ok <==> SetFailed !in outcomes)
        invariant SparedSince(from, orig, targets)
      {
        ok, outcomes, times := SweepStep(targets, i, ok, outcomes, times, start, from, orig);
      }
      assert targets[..|targets|] == targets;
    }

    method SweepStep(targets: seq<HwService>, i: nat, sofar: bool, ghost outcomes: seq<Outcome>, ghost times: seq<nat>, ghost start: nat, ghost from: nat,
                     ghost orig: map<string, Setting>) returns (ok: bool, ghost all: seq<Outcome>, ghost more: seq<nat>)
      requires SparedSince(from, orig, targets) && record == None && i < |targets| && |outcomes| == i && Swept(orig, settings, targets[..i], outcomes, parse)
      requires Timed(targets, outcomes, times, start, orig) && times[i] == clock && (sofar <==> SetFailed !in outcomes)
      modifies this`settings, this`clock, this`history
      ensures |all| == i + 1 && Swept(orig, settings, targets[..i + 1], all, parse) && SparedSince(from, orig, targets)
      ensures Timed(targets, all, more, start, orig) && more[i + 1] == clock && (ok <==> SetFailed !in all)
      ensures old(history) <= history && record == old(record)
    {
      var done;
      ghost var o;
      done, o := SweepNext(targets, i, outcomes, from, orig);
      TimedMore(targets, outcomes, times, start, o, orig);
      ok, all, more := sofar && done, outcomes + [o], times + [clock];
    }

    lemma TimedMore(targets: seq<HwService>, outcomes: seq<Outcome>, times: seq<nat>, start: nat, o: Outcome, orig: map<string, Setting>)
      requires Timed(targets, outcomes, times, start, orig) && |outcomes| < |targets| && Fits(targets[|outcomes|], o, times[|outcomes|], orig)
      ensures Timed(targets, outcomes + [o], times + [times[|outcomes|] + Calls(o)], start, orig)
    {
    }

    ghost predicate SparedSince(from: nat, orig: map<string, Setting>, targets: seq<HwService>)
      reads this`history
    {
      from <= |history| && forall k :: from <= k < |history| ==> Spared(history[k], orig, targets, parse)
    }

    method SweepNext(targets: seq<HwService>, i: nat, ghost outcomes: seq<Outcome>, ghost from: nat, ghost orig: map<string, Setting>)
      returns (ok: bool, ghost o: Outcome)
      requires SparedSince(from, orig, targets) && record == None && i < |targets| && |outcomes| == i && Swept(orig, settings, targets[..i], outcomes, parse)
      modifies this`settings, this`clock, this`history
      ensures Swept(orig, settings, targets[..i + 1], outcomes + [o], parse) && SparedSince(from, orig, targets)
      ensures old(history) <= history && record == old(record) && (ok <==> o != SetFailed)
      ensures Fits(targets[i], o, old(clock), orig) && clock == old(clock) + Calls(o)
    {
      ghost var before := settings;
      ok, o := SweepOne(targets[i]);
      SweptNext(orig, before, Now(), targets, i, outcomes, o, parse);
    }

    method SweepOne(target: HwService) returns (ok: bool, ghost o: Outcome)
      requires record == None
      modifies this`settings, this`clock, this`history
      ensures Swipe(old(settings), settings, target.name, o, parse) && (ok <==> o != SetFailed)
      ensures Fits(target, o, old(clock), old(settings)) && record == old(record)
      ensures clock == old(clock) + Calls(o)
      ensures history == old(history) || history == old(history) + [Now()]
    {
      var s := GetDNS(target.name);
      if s.None? {
        return true, Unread;
      }
      if s.value.Dhcp? || !OnlyStub(s.value, parse) {
        return true, Kept;
      }
      ok := SetDNS(target.name, []);
      o := if ok then Cleared else SetFailed;
    }
  }

  /** Every service has its original setting, but for the pending ones. */
  ghost predicate OnlyPending(settings: map<string, Setting>, pending: seq<ServiceDNS>, orig: map<string, Setting>) {
    settings.Keys == orig.Keys && forall n :: n in orig ==> settings[n] == orig[n] || Listed(n, pending)
  }

  lemma WrittenNone(d: Disk, orig: map<string, Setting>)
    requires Recoverable(d, orig)
    ensures Written(d.settings, Entries(d.record), 0, [], [], orig)
  {
    assert Entries(d.record)[0..] == Entries(d.record);
  }

  lemma WrittenAll(settings: map<string, Setting>, services: seq<ServiceDNS>, failed: seq<bool>, pending: seq<ServiceDNS>, orig: map<string, Setting>)
    requires Written(settings, services, |services|, failed, pending, orig)
    ensures |failed| == |services| && pending == Failing(services, failed) && LastCalls(settings, services, failed, None)
    ensures OnlyPending(settings, pending, orig)
  {
    assert services[..|services|] == services && services[|services|..] == [];
  }

  lemma NothingPending(settings: map<string, Setting>, orig: map<string, Setting>)
    requires OnlyPending(settings, [], orig)
    ensures settings == orig
  {
  }

  lemma PendingMeans(entries: seq<ServiceDNS>, failed: seq<bool>, orig: map<string, Setting>)
    requires |failed| == |entries| && HoldOriginals(entries, orig)
    ensures var pending := Failing(entries, failed);
            && Subsequence(pending, entries) && Subsequence(entries, entries) && HoldOriginals(pending, orig)
            && (pending == [] <==> true !in failed)
  {
    FailingIsSubsequence(entries, failed);
    SubsequenceSelf(entries);
    FailingEntries(entries, failed, orig);
    FailingShorter(entries, failed);
  }

  /** The entries save the settings of the targets, in order. */
  ghost predicate Snapped(entries: seq<ServiceDNS>, targets: seq<HwService>, orig: map<string, Setting>) {
    && |entries| == |targets|
    && forall i :: 0 <= i < |entries| ==>
         && entries[i].name == targets[i].name && entries[i].name in orig
         && entries[i] == EntryFor(entries[i].name, orig[entries[i].name])
  }

  /** A state without a record in which nothing but stub-only targets differs from the originals. */
  ghost predicate Spared(d: Disk, orig: map<string, Setting>, targets: seq<HwService>, parse: Parser) {
    && d.record == None && d.settings.Keys == orig.Keys
    && forall n :: n in orig && d.settings[n] != orig[n] ==> OnlyStub(orig[n], parse) && Named(n, targets)
  }

  lemma SweptNext(orig: map<string, Setting>, before: map<string, Setting>, d: Disk, targets: seq<HwService>, i: nat,
                  outcomes: seq<Outcome>, o: Outcome, parse: Parser)
    requires i < |targets| && |outcomes| == i && d.record == None
    requires Swept(orig, before, targets[..i], outcomes, parse) && Swipe(before, d.settings, targets[i].name, o, parse)
    ensures Swept(orig, d.settings, targets[..i + 1], outcomes + [o], parse) && Spared(d, orig, targets, parse)
  {
    SweptMore(orig, before, d.settings, targets[..i], outcomes, targets[i], o, parse);
    assert targets[..i + 1] == targets[..i] + [targets[i]];
    SweptSpared(orig, d, targets, i + 1, outcomes + [o], parse);
  }

  lemma SweptSpared(orig: map<string, Setting>, d: Disk, targets: seq<HwService>, i: nat, outcomes: seq<Outcome>, parse: Parser)
    requires i <= |targets| && |outcomes| == i && d.record == None && Swept(orig, d.settings, targets[..i], outcomes, parse)
    ensures Spared(d, orig, targets, parse)
  {
    forall n | n in orig && d.settings[n] != orig[n]
      ensures Named(n, targets)
    {
      var k :| 0 <= k < |targets[..i]| && targets[..i][k].name == n;
      assert targets[k].name == n;
    }
  }

  function Wanted(e: ServiceDNS, stub: Option<string>): Setting {
    match stub
    case None => Saved(e)
    case Some(ip) => Static([ip])
  }

  /** For each call that succeeded and was the last one for its service, the service has the wanted setting. */
  ghost predicate LastCalls(settings: map<string, Setting>, entries: seq<ServiceDNS>, failed: seq<bool>, stub: Option<string>)
    requires |failed| == |entries|
  {
    forall i :: 0 <= i < |entries| && !failed[i] && IsLast(entries, i)
                ==> entries[i].name in settings && settings[entries[i].name] == Wanted(entries[i], stub)
  }

  /** No later entry is for the same service. */
  predicate IsLast(entries: seq<ServiceDNS>, i: nat)
    requires i < |entries|
  {
    forall k :: i < k < |entries| ==> entries[k].name != entries[i].name
  }

  lemma LastCallsSnoc(before: map<string, Setting>, after: map<string, Setting>, entries: seq<ServiceDNS>, failed: seq<bool>,
                      stub: Option<string>, e: ServiceDNS, f: bool)
    requires |failed| == |entries| && LastCalls(before, entries, failed, stub)
    requires after.Keys == before.Keys
    requires forall n :: n in before && n != e.name ==> after[n] == before[n]
    requires !f ==> e.name in after && after[e.name] == Wanted(e, stub)
    ensures LastCalls(after, entries + [e], failed + [f], stub)
  {
    var all := entries + [e];
    forall i | 0 <= i < |all| && !(failed + [f])[i] && IsLast(all, i)
      ensures all[i].name in after && after[all[i].name] == Wanted(all[i], stub)
    {
      if i < |entries| {
        assert all[|entries|].name != all[i].name;
        assert forall k :: i < k < |entries| ==> all[k] == entries[k];
        assert IsLast(entries, i);
      }
    }
  }

  /** Changing a service that is in the record keeps the disk recoverable. */
  lemma StillRecoverable(before: Disk, after: Disk, name: string, orig: map<string, Setting>)
    requires Recoverable(before, orig) && after.record == before.record && Listed(name, Entries(before.record))
    requires after.settings.Keys == before.settings.Keys
    requires forall n :: n in before.settings && n != name ==> after.settings[n] == before.settings[n]
    ensures Recoverable(after, orig)
  {
  }

  lemma StillPending(before: map<string, Setting>, after: map<string, Setting>, kept: seq<ServiceDNS>, pending: seq<ServiceDNS>,
                     services: seq<ServiceDNS>, i: nat, orig: map<string, Setting>, done: bool)
    requires i < |services| && before.Keys == after.Keys == orig.Keys
    requires forall n :: n in before && n != services[i].name ==> after[n] == before[n]
    requires services[i].name in orig && Saved(services[i]) == orig[services[i].name]
    requires done ==> after[services[i].name] == Saved(services[i])
    requires pending == if done then kept else kept + [services[i]]
    requires forall n :: n in orig ==> before[n] == orig[n] || Listed(n, kept) || Listed(n, services[i..])
    ensures forall n :: n in orig ==> after[n] == orig[n] || Listed(n, pending) || Listed(n, services[i + 1..])
  {
    forall n | n in orig
      ensures after[n] == orig[n] || Listed(n, pending) || Listed(n, services[i + 1..])
    {
      if n == services[i].name {
        assert !done ==> pending[|kept|].name == n;
      } else if Listed(n, kept) {
        var k :| 0 <= k < |kept| && kept[k].name == n;
        assert pending[k].name == n;
      } else if Listed(n, services[i..]) {
        var k :| 0 <= k < |services[i..]| && services[i..][k].name == n;
        assert k > 0 && services[i + 1..][k - 1] == services[i..][k];
      }
    }
  }

  /** The state of a write-back after i entries. */
  ghost predicate Written(settings: map<string, Setting>, services: seq<ServiceDNS>, i: int, failed: seq<bool>, pending: seq<ServiceDNS>,
                          orig: map<string, Setting>)
  {
    && 0 <= i <= |services| && |failed| == i && pending == Failing(services[..i], failed) && LastCalls(settings, services[..i], failed, None)
    && settings.Keys == orig.Keys
    && forall n :: n in orig ==> settings[n] == orig[n] || Listed(n, pending) || Listed(n, services[i..])
  }

  lemma WrittenStep(before: map<string, Setting>, after: map<string, Setting>, services: seq<ServiceDNS>, i: nat, failed: seq<bool>,
                    kept: seq<ServiceDNS>, orig: map<string, Setting>, done: bool)
    requires i < |services| && Written(before, services, i, failed, kept, orig) && after.Keys == before.Keys
    requires forall n :: n in before && n != services[i].name ==> after[n] == before[n]
    requires services[i].name in orig && Saved(services[i]) == orig[services[i].name]
    requires done ==> after[services[i].name] == Saved(services[i])
    ensures Written(after, services, i + 1, failed + [!done], if done then kept else kept + [services[i]], orig)
  {
    var svc := services[i];
    LastCallsSnoc(before, after, services[..i], failed, None, svc, !done);
    FailingSnoc(services[..i], failed, svc, !done);
    assert services[..i + 1] == services[..i] + [svc];
    StillPending(before, after, kept, if done then kept else kept + [svc], services, i, orig, done);
  }

  lemma {:induction false} FailingEntries(entries: seq<ServiceDNS>, failed: seq<bool>, orig: map<string, Setting>)
    requires |failed| == |entries|
    requires HoldOriginals(entries, orig)
    ensures HoldOriginals(Failing(entries, failed), orig)
  {
    if entries != [] {
      FailingEntries(entries[1..], failed[1..], orig);
    }
  }

  lemma {:induction false} SubsequenceSelf(a: seq<ServiceDNS>)
    ensures Subsequence(a, a)
  {
    if a != [] {
      SubsequenceSelf(a[1..]);
    }
  }

  // ---------------------------------------------------------------- whole runs

  datatype Call =
    | ApplyStub(stub: string)
    | RestoreAll(armed: bool, stubUp: bool)

  /** A flush that took place: the call and the services it was given. */
  datatype Flush = Flush(call: nat, listed: seq<HwService>)

  /** The user's own resolver on the stub address, on a service that some flush could steer. */
  predicate Exposed(n: string, orig: map<string, Setting>, flushes: seq<Flush>, parse: Parser) {
    n in orig && OnlyStub(orig[n], parse) && exists i :: 0 <= i < |flushes| && Steered(n, flushes[i].listed)
  }

  ghost predicate Near(m: map<string, Setting>, orig: map<string, Setting>, flushes: seq<Flush>, parse: Parser) {
    m.Keys == orig.Keys && forall n :: n in orig && m[n] != orig[n] ==> Exposed(n, orig, flushes, parse)
  }

  /** The disk alone determines the original settings, but for the exposed ones. */
  ghost predicate Survives(d: Disk, orig: map<string, Setting>, flushes: seq<Flush>, parse: Parser) {
    Recoverable(d, Undone(d)) && Near(Undone(d), orig, flushes, parse)
  }

  lemma StillNear(m: map<string, Setting>, orig: map<string, Setting>, flushes: seq<Flush>, f: Flush, parse: Parser)
    requires Near(m, orig, flushes, parse)
    ensures Near(m, orig, flushes + [f], parse)
  {
    forall n | n in orig && m[n] != orig[n]
      ensures Exposed(n, orig, flushes + [f], parse)
    {
      var i :| 0 <= i < |flushes| && Steered(n, flushes[i].listed);
      assert (flushes + [f])[i] == flushes[i];
    }
  }

  lemma FlushSurvives(d: Disk, base: map<string, Setting>, orig: map<string, Setting>, flushes: seq<Flush>, f: Flush, parse: Parser)
    requires Near(base, orig, flushes, parse) && Spared(d, base, Targets(f.listed), parse)
    ensures Survives(d, orig, flushes + [f], parse)
  {
    var all := flushes + [f];
    StillNear(base, orig, flushes, f, parse);
    assert Recoverable(d, d.settings);
    RecoverableDetermines(d, d.settings);
    forall n | n in orig && d.settings[n] != orig[n]
      ensures Exposed(n, orig, all, parse)
    {
      if base[n] == orig[n] {
        TargetsExact(f.listed, n);
        assert Steered(n, all[|flushes|].listed);
      }
    }
  }

  /** An undoable state of a call that kept `base` survives. */
  lemma BaseSurvives(d: Disk, base: map<string, Setting>, orig: map<string, Setting>, flushes: seq<Flush>, parse: Parser)
    requires Recoverable(d, base) && Near(base, orig, flushes, parse)
    ensures Survives(d, orig, flushes, parse)
  {
    RecoverableDetermines(d, base);
  }

  lemma StillSurvives(d: Disk, orig: map<string, Setting>, flushes: seq<Flush>, f: Flush, parse: Parser)
    requires Survives(d, orig, flushes, parse)
    ensures Survives(d, orig, flushes + [f], parse)
  {
    StillNear(Undone(d), orig, flushes, f, parse);
  }

  /** One call; every durable state it goes through survives, and so does where it leaves the disk. */
  method OneCall(sys: System, call: Call, index: nat, ghost orig: map<string, Setting>, ghost flushes: seq<Flush>) returns (ghost more: seq<Flush>)
    requires Survives(sys.Now(), orig, flushes, sys.parse)
    modifies sys
    ensures old(sys.history) <= sys.history && Survives(sys.Now(), orig, more, sys.parse)
    ensures forall k :: |old(sys.history)| <= k < |sys.history| ==> Survives(sys.history[k], orig, more, sys.parse)
    ensures more == flushes || (exists listed :: more == flushes + [Flush(index, listed)] && old(sys.record).None? && call.RestoreAll? && call.armed)
  {
    ghost var base, from := Undone(sys.Now()), |sys.history|;
    more := flushes;
    match call {
      case ApplyStub(stub) =>
        var _, _ := sys.Apply(stub, base);
        AllSurvive(sys, from, base, orig, flushes);
      case RestoreAll(armed, stubUp) =>
        more := OneRestore(sys, armed, stubUp, index, base, orig, flushes);
    }
  }

  lemma AllSurvive(sys: System, from: nat, base: map<string, Setting>, orig: map<string, Setting>, flushes: seq<Flush>)
    requires sys.SafeSince(from, base) && Near(base, orig, flushes, sys.parse)
    ensures Survives(sys.Now(), orig, flushes, sys.parse)
    ensures forall k :: from <= k < |sys.history| ==> Survives(sys.history[k], orig, flushes, sys.parse)
  {
    BaseSurvives(sys.Now(), base, orig, flushes, sys.parse);
    forall k | from <= k < |sys.history|
      ensures Survives(sys.history[k], orig, flushes, sys.parse)
    {
      BaseSurvives(sys.history[k], base, orig, flushes, sys.parse);
    }
  }

  method OneRestore(sys: System, armed: bool, stubUp: bool, index: nat, ghost base: map<string, Setting>, ghost orig: map<string, Setting>,
                    ghost flushes: seq<Flush>) returns (ghost more: seq<Flush>)
    requires Recoverable(sys.Now(), base) && Near(base, orig, flushes, sys.parse)
    modifies sys
    ensures old(sys.history) <= sys.history && Survives(sys.Now(), orig, more, sys.parse)
    ensures forall k :: |old(sys.history)| <= k < |sys.history| ==> Survives(sys.history[k], orig, more, sys.parse)
    ensures more == flushes || (exists listed :: more == flushes + [Flush(index, listed)] && old(sys.record).None? && armed)
  {
    ghost var before, from := sys.record, |sys.history|;
    var ok;
    ghost var pass;
    ok, pass := sys.Restore(armed, stubUp, base);
    more := flushes;
    if before.Some? {
      AllSurvive(sys, from, base, orig, flushes);
    } else if pass.listed.None? {
      BaseSurvives(sys.Now(), base, orig, flushes, sys.parse);
    } else {
      var f := Flush(index, pass.listed.value);
      more := flushes + [f];
      assert Spared(sys.Now(), base, Targets(f.listed), sys.parse);
      FlushSurvives(sys.Now(), base, orig, flushes, f, sys.parse);
      forall k | from <= k < |sys.history|
        ensures Survives(sys.history[k], orig, more, sys.parse)
      {
        FlushSurvives(sys.history[k], base, orig, flushes, f, sys.parse);
      }
    }
  }

  /** Each flush was an armed restore of this series that found a disk without a record. */
  ghost predicate Genuine(flushes: seq<Flush>, calls: seq<Call>, disks: seq<Disk>) {
    forall i :: 0 <= i < |flushes| ==>
      && flushes[i].call < |disks| <= |calls| && disks[flushes[i].call].record == None
      && calls[flushes[i].call].RestoreAll? && calls[flushes[i].call].armed
  }

  ghost predicate AllSurviveIn(disks: seq<Disk>, from: nat, orig: map<string, Setting>, flushes: seq<Flush>, parse: Parser) {
    forall k :: from <= k < |disks| ==> Survives(disks[k], orig, flushes, parse)
  }

  lemma StillSurvive(disks: seq<Disk>, from: nat, orig: map<string, Setting>, flushes: seq<Flush>, more: seq<Flush>, parse: Parser)
    requires AllSurviveIn(disks, from, orig, flushes, parse) && (more == flushes || exists f :: more == flushes + [f])
    ensures AllSurviveIn(disks, from, orig, more, parse)
  {
    if more != flushes {
      var f :| more == flushes + [f];
      forall k | from <= k < |disks|
        ensures Survives(disks[k], orig, more, parse)
      {
        StillSurvives(disks[k], orig, flushes, f, parse);
      }
    }
  }

  /**
    Any series of Apply and Restore calls, in which the process may die inside each of them: the
    disk then keeps one of the states it passed through, and the next call starts from there.
    Every state on the way determines the original setting of every service, except one that the
    user had pointed at the stub address and that an armed restore without a record could steer;
    whenever no record is left those settings are back. `disks` is what each call found.
   */
  method AnyRun(sys: System, calls: seq<Call>, ghost orig: map<string, Setting>) returns (ghost disks: seq<Disk>, ghost flushes: seq<Flush>)
    requires sys.settings == orig && sys.record == None
    modifies sys
    ensures old(sys.history) <= sys.history && |disks| == |calls| && Genuine(flushes, calls, disks)
    ensures Survives(sys.Now(), orig, flushes, sys.parse)
    ensures AllSurviveIn(sys.history, |old(sys.history)|, orig, flushes, sys.parse) && AllSurviveIn(disks, 0, orig, flushes, sys.parse)
    ensures Entries(sys.record) == [] ==> Near(sys.settings, orig, flushes, sys.parse)
  {
    disks, flushes := [], [];
    ghost var from := |sys.history|;
    BaseSurvives(sys.Now(), orig, orig, flushes, sys.parse);
    for i := 0 to |calls|
      invariant old(sys.history) <= sys.history && Survives(sys.Now(), orig, flushes, sys.parse)
      invariant AllSurviveIn(sys.history, from, orig, flushes, sys.parse) && AllSurviveIn(disks, 0, orig, flushes, sys.parse)
      invariant |disks| == i && Genuine(flushes, calls, disks)
    {
      ghost var was, past := flushes, sys.history;
      disks := disks + [sys.Now()];
      flushes := MaybeDies(sys, calls[i], i, orig, was);
      StillSurvive(disks, 0, orig, was, flushes, sys.parse);
      StillSurvive(past, from, orig, was, flushes, sys.parse);
    }
    assert Entries(sys.record) == [] ==> Undone(sys.Now()) == sys.settings;
  }

  method MaybeDies(sys: System, call: Call, index: nat, ghost orig: map<string, Setting>, ghost flushes: seq<Flush>) returns (ghost more: seq<Flush>)
    requires Survives(sys.Now(), orig, flushes, sys.parse)
    modifies sys
    ensures old(sys.history) <= sys.history && Survives(sys.Now(), orig, more, sys.parse)
    ensures AllSurviveIn(sys.history, |old(sys.history)|, orig, more, sys.parse)
    ensures more == flushes || (exists listed :: more == flushes + [Flush(index, listed)] && old(sys.record).None? && call.RestoreAll? && call.armed)
  {
    var started := |sys.history|;
    var dies: bool := *;
    more := OneCall(sys, call, index, orig, flushes);
    if dies {
      Crash(sys, started);
    }
  }

  /** The process dies: the disk is in any durable state of the interrupted call. */
  method Crash(sys: System, started: nat)
    modifies sys
    ensures sys.history == old(sys.history)
    ensures sys.Now() == old(sys.Now()) || exists k :: started <= k < |sys.history| && sys.Now() == sys.history[k]
  {
    if started < |sys.history| {
      var k :| started <= k < |sys.history|;
      sys.settings, sys.record := sys.history[k].settings, sys.history[k].record;
    }
  }

  /**
    Restoring again and again until it reports success: after as many helpful passes as the record
    has services (one, if it has none) the record is gone and every setting is the original one.
   */
  method RestoreUntilDone(sys: System, attempts: seq<(bool, bool)>, ghost orig: map<string, Setting>) returns (done: bool, ghost passes: seq<Pass>)
    requires Recoverable(sys.Now(), orig) && sys.record.Some?
    modifies sys
    ensures sys.SafeSince(|old(sys.history)|, orig) && old(sys.history) <= sys.history
    ensures |passes| <= |attempts| && sys.record == AfterPasses(old(sys.record), passes)
    ensures done <==> sys.record == None
    ensures done ==> sys.settings == orig
    ensures !done ==> |passes| == |attempts| && HelpfulPasses(old(sys.record), passes) < Needed(old(sys.record))
  {
    done, passes := false, [];
    var i := 0;
    while i < |attempts| && !done
      invariant i == |passes| <= |attempts| && sys.record == AfterPasses(old(sys.record), passes)
      invariant sys.SafeSince(|old(sys.history)|, orig) && old(sys.history) <= sys.history
      invariant (done <==> sys.record == None) && (done ==> sys.settings == orig)
    {
      ghost var pass;
      done, pass := sys.Restore(attempts[i].0, attempts[i].1, orig);
      assert (passes + [pass])[..|passes|] == passes;
      passes := passes + [pass];
      i := i + 1;
    }
    RetriesConverge(old(sys.record), passes);
  }

  // ------------------------------------------------------- there and back

  lemma {:induction false} LastSame(entries: seq<ServiceDNS>, i: nat, to: nat) returns (j: nat)
    requires i < to <= |entries|
    ensures i <= j < to && entries[j].name == entries[i].name && forall k :: j < k < to ==> entries[k].name != entries[i].name
  {
    if entries[to - 1].name == entries[i].name {
      j := to - 1;
    } else {
      j := LastSame(entries, i, to - 1);
    }
  }

  lemma AllPointed(settings: map<string, Setting>, entries: seq<ServiceDNS>, failed: seq<bool>, ip: string, i: nat)
    requires |failed| == |entries| && LastCalls(settings, entries, failed, Some(ip)) && true !in failed && i < |entries|
    ensures entries[i].name in settings && settings[entries[i].name] == Static([ip])
  {
    var j := LastSame(entries, i, |entries|);
    assert IsLast(entries, j) && failed[j] in failed;
  }

  /** Applying succeeds when the record could be read and written, every target read and some target set. */
  method There(sys: System, ip: string, ghost write: nat, ghost orig: map<string, Setting>) returns (applied: bool, ghost entries: seq<ServiceDNS>)
    requires sys.settings == orig && sys.record == None && sys.parse(ip).Some?
    requires sys.Readable(sys.clock, orig) && write == sys.clock + 2 + |Targets(sys.offered(sys.clock + 1))|
    requires sys.fate(write) && false in sys.Fails(write + 1, |Targets(sys.offered(sys.clock + 1))|)
    modifies sys
    ensures Recoverable(sys.Now(), orig) && Snapped(entries, Targets(sys.offered(old(sys.clock) + 1)), orig)
    ensures applied && sys.Arrived(ip, entries, write + 1)
  {
    applied, entries := SteerFresh(sys, ip, write, orig);
    sys.SteersMeans(applied, ip, entries, write, None);
  }

  method SteerFresh(sys: System, ip: string, ghost write: nat, ghost orig: map<string, Setting>) returns (applied: bool, ghost entries: seq<ServiceDNS>)
    requires sys.settings == orig && sys.record == None && sys.parse(ip).Some?
    requires sys.Readable(sys.clock, orig) && write == sys.clock + 2 + |Targets(sys.offered(sys.clock + 1))|
    modifies sys
    ensures Recoverable(sys.Now(), orig) && Snapped(entries, Targets(sys.offered(old(sys.clock) + 1)), orig)
    ensures |entries| == |Targets(sys.offered(old(sys.clock) + 1))| && sys.Steers(applied, ip, entries, write, None)
  {
    applied, entries := sys.ApplyAt(ip, orig);
  }

  lemma Pointed(failed: seq<bool>, entries: seq<ServiceDNS>, targets: seq<HwService>, now: map<string, Setting>, ip: string, orig: map<string, Setting>)
    requires |failed| == |entries| && true !in failed && LastCalls(now, entries, failed, Some(ip)) && Snapped(entries, targets, orig)
    ensures forall i :: 0 <= i < |targets| ==> targets[i].name in now && now[targets[i].name] == Static([ip])
  {
    forall i | 0 <= i < |targets|
      ensures targets[i].name in now && now[targets[i].name] == Static([ip])
    {
      AllPointed(now, entries, failed, ip, i);
      assert entries[i].name == targets[i].name;
    }
  }

  lemma SomeWorks(failed: seq<bool>)
    requires failed != [] && true !in failed
    ensures false in failed
  {
    assert !failed[0] by {
      assert failed[0] in failed;
    }
    assert failed[0] in failed;
  }

  /**
    When every call works, applying points every steered service at the stub and restoring brings every
    original setting back.
   */
  method ThereAndBack(sys: System, ip: string, ghost n: nat, ghost orig: map<string, Setting>)
    returns (applied: bool, restored: bool, ghost between: map<string, Setting>)
    requires sys.settings == orig && sys.record == None && sys.parse(ip).Some? && n == |Targets(sys.offered(sys.clock + 1))|
    requires sys.Readable(sys.clock, orig) && sys.fate(sys.clock + 2 + n) && true !in sys.Fails(sys.clock + 3 + n, n)
    requires sys.AllWork(sys.clock + 3 + 2 * n, sys.clock + 5 + 3 * n)
    modifies sys
    ensures applied && restored && sys.settings == orig && sys.record == None
    ensures var targets := Targets(sys.offered(old(sys.clock) + 1));
            forall i :: 0 <= i < |targets| ==> targets[i].name in between && between[targets[i].name] == Static([ip])
  {
    ghost var entries;
    SomeWorks(sys.Fails(sys.clock + 3 + n, n));
    applied, entries := There(sys, ip, sys.clock + 2 + n, orig);
    between := sys.settings;
    Pointed(sys.Fails(old(sys.clock) + 3 + n, n), entries, Targets(sys.offered(old(sys.clock) + 1)), between, ip, orig);
    restored := Back(sys, orig);
  }

  method Back(sys: System, ghost orig: map<string, Setting>) returns (restored: bool)
    requires Recoverable(sys.Now(), orig) && sys.record.Some? && sys.AllWork(sys.clock, sys.clock + |Entries(sys.record)| + 2)
    modifies sys
    ensures restored && sys.settings == orig && sys.record == None
  {
    ghost var pass;
    restored, pass := sys.Restore(true, false, orig);
  }

  // ------------------------------------------------------- the setting that cannot be kept

  lemma OwnFlushed(svc: HwService, own: string, parse: Parser)
    requires Steerable(svc) && OnlyStub(Static([own]), parse)
    ensures Flushed(map[svc.name := Static([own])], [svc], parse) == map[svc.name := Dhcp]
  {
    assert svc in [svc];
    assert Offers(svc.name, [svc], Steerable);
  }

  lemma OwnGone(now: map<string, Setting>, svc: HwService, own: string, outcomes: seq<Outcome>, parse: Parser)
    requires Steerable(svc) && OnlyStub(Static([own]), parse) && |outcomes| == |Targets([svc])|
    requires Swept(map[svc.name := Static([own])], now, Targets([svc]), outcomes, parse) && Unread !in outcomes && SetFailed !in outcomes
    ensures now == map[svc.name := Dhcp]
  {
    OwnFlushed(svc, own, parse);
    SweptSmooth(map[svc.name := Static([own])], now, [svc], outcomes, parse);
  }

  /**
    A user whose only resolver is a local one on the stub address: the armed restore that finds no
    record replaces it by DHCP whenever its calls succeed, on any steered service.
   */
  method OwnResolverLost(sys: System, svc: HwService, own: string) returns (ok: bool, ghost pass: Pass)
    requires Steerable(svc) && OnlyStub(Static([own]), sys.parse)
    requires sys.record == None && sys.settings == map[svc.name := Static([own])]
    modifies sys
    ensures pass.listed == Some([svc]) && ok && Unread !in pass.outcomes ==> sys.Now() == Disk(map[svc.name := Dhcp], None)
  {
    ghost var orig := sys.settings;
    ok, pass := sys.Restore(true, false, orig);
    if pass.listed == Some([svc]) && ok && Unread !in pass.outcomes {
      OwnGone(sys.settings, svc, own, pass.outcomes, sys.parse);
    }
  }

  /** One such user: a service with a one-letter name, whose only server is the stub address itself. */
  method OwnResolverExample(sys: System, svc: HwService) returns (ok: bool, ghost pass: Pass)
    requires svc == HwService("x", "", "", false) && sys.parse(STUB_IP).Some?
    requires sys.record == None && sys.settings == map["x" := Static([STUB_IP])]
    modifies sys
    ensures pass.listed == Some([svc]) && ok && Unread !in pass.outcomes ==> sys.Now() == Disk(map["x" := Dhcp], None)
  {
    OneLetter(svc, svc.name);
    ok, pass := OwnResolverLost(sys, svc, STUB_IP);
  }
}
