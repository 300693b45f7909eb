/**
  Strategies that arrive in a signed ruleset (FromSpec in offveil-core/internal/desync/chain.go): the
  options every candidate is given in front, and which specifications come back from the strategy
  store as the helper that was confirmed.
 */
module ChainSpecs {
  import opened Options
  import opened Chain

  const NO_DOMAIN: string := "--no-domain"
  const TIMEOUT: string := "--timeout"
  const THREE: string := "3"

  predicate HasTimeout(args: seq<string>) {
    exists i :: 0 <= i < |args| && FlagName(args[i]) in VALUED_GLOBALS
  }

  function Prefix(args: seq<string>, darwin: bool): seq<string> {
    if darwin || HasTimeout(args) then [NO_DOMAIN] else [NO_DOMAIN] + [TIMEOUT, THREE]
  }

  function Candidate(id: string, args: seq<string>, darwin: bool): Strategy {
    Strategy(id, Prefix(args, darwin) + args, "signed ruleset candidate")
  }

  predicate Allowed(args: seq<string>, darwin: bool) {
    args != [] && Accepted(args) && !(darwin && exists i :: 0 <= i < |args| && DarwinUnsupported(args[i]))
  }

  method FromSpec(id: string, args: seq<string>, darwin: bool) returns (r: Option<Strategy>)
    ensures r == if Allowed(args, darwin) then Some(Candidate(id, args, darwin)) else None
    ensures r.Some? ==> r.value.id == id
    ensures r.Some? ==> var timed := exists i :: 0 <= i < |args| && (FlagName(args[i]) == "--timeout" || FlagName(args[i]) == "-T");
                        r.value.args == (if darwin || timed then ["--no-domain"] else ["--no-domain", "--timeout", "3"]) + args
  {
    var ok := ValidateStrategyArgs(args, darwin);
    if !ok {
      return None;
    }
    var prefix := [NO_DOMAIN];
    if !darwin {
      var has := HasFlag(args, VALUED_GLOBALS);
      if !has {
        prefix := prefix + [TIMEOUT, THREE];
      }
    }
    r := Some(Strategy(id, prefix + args, "signed ruleset candidate"));
  }

  method HasFlag(args: seq<string>, names: seq<string>) returns (found: bool)
    ensures found <==> exists i :: 0 <= i < |args| && FlagName(args[i]) in names
  {
    for i := 0 to |args|
      invariant forall k :: 0 <= k < i ==> FlagName(args[k]) !in names
    {
      for j := 0 to |names|
        invariant forall k :: 0 <= k < j ==> FlagName(args[i]) != names[k]
      {
        if FlagName(args[i]) == names[j] {
          return true;
        }
      }
    }
    return false;
  }

  // ------------------------------------------------------------ the options in front

  /** Options in front of a list that leave open how the list itself is read. */
  predicate Transparent(pre: seq<string>, args: seq<string>) {
    && Dangling(pre + args) == Dangling(args) && Parse(pre + args).1 == Parse(args).1
    && forall k :: 0 <= k <= |args| ==> GlobalRun(pre + args[..k]) == GlobalRun(args[..k])
  }

  lemma PlainInFront(x: string, args: seq<string>)
    requires IsGlobal(x) && !ValuedGlobal(x)
    ensures Transparent([x], args)
  {
    assert ([x] + args)[1..] == args;
    forall k | 0 <= k <= |args|
      ensures GlobalRun([x] + args[..k]) == GlobalRun(args[..k])
    {
      assert ([x] + args[..k])[1..] == args[..k];
    }
  }

  lemma ValuedInFront(x: string, v: string, args: seq<string>)
    requires ValuedGlobal(x)
    ensures Transparent([x, v], args)
  {
    assert ([x, v] + args)[2..] == args;
    forall k | 0 <= k <= |args|
      ensures GlobalRun([x, v] + args[..k]) == GlobalRun(args[..k])
    {
      assert ([x, v] + args[..k])[2..] == args[..k];
    }
  }

  lemma InFrontOf(a: seq<string>, b: seq<string>, args: seq<string>)
    requires Transparent(b, args) && Transparent(a, b + args)
    ensures Transparent(a + b, args)
  {
    assert (a + b) + args == a + (b + args);
    forall k | 0 <= k <= |args|
      ensures GlobalRun((a + b) + args[..k]) == GlobalRun(args[..k])
    {
      assert (b + args)[..|b| + k] == b + args[..k];
      assert (a + b) + args[..k] == a + (b + args[..k]);
    }
  }

  lemma NoDomainName(flag: string)
    requires flag == NO_DOMAIN
    ensures FlagName(flag) == flag && flag !in VALUED_GLOBALS
  {
    PlainName(flag);
  }

  lemma NoDomainGlobal(flag: string)
    requires flag == NO_DOMAIN
    ensures IsGlobal(flag) && !ValuedGlobal(flag)
  {
    NoDomainName(flag);
    assert PLAIN_GLOBALS[0] == flag;
  }

  lemma TimeoutName(flag: string)
    requires flag == TIMEOUT
    ensures FlagName(flag) == flag && !Inline(flag)
  {
    PlainName(flag);
  }

  lemma TimeoutGlobal(flag: string)
    requires flag == TIMEOUT
    ensures ValuedGlobal(flag)
  {
    TimeoutName(flag);
    assert VALUED_GLOBALS[0] == flag;
  }

  lemma PrefixTransparent(args: seq<string>, darwin: bool)
    ensures Transparent(Prefix(args, darwin), args)
  {
    NoDomainGlobal(NO_DOMAIN);
    PlainInFront(NO_DOMAIN, args);
    if !darwin && !HasTimeout(args) {
      TimeoutGlobal(TIMEOUT);
      ValuedInFront(TIMEOUT, THREE, args);
      PlainInFront(NO_DOMAIN, [TIMEOUT, THREE] + args);
      InFrontOf([NO_DOMAIN], [TIMEOUT, THREE], args);
    }
  }

  /** The first marker moves with the list when nothing in front of it looks like one. */
  lemma MarkerMoves(pre: seq<string>, args: seq<string>)
    requires AUTO !in pre
    ensures FirstMarker(pre + args, 0) ==
            match FirstMarker(args, 0) case None => None case Some(i) => Some(|pre| + i)
  {
    var all := pre + args;
    assert forall i :: 0 <= i < |pre| ==> all[i] == pre[i] && !MarkerAt(all, i);
    forall i | 0 <= i
      ensures MarkerAt(all, |pre| + i) <==> MarkerAt(args, i)
    {
      if i + 1 < |args| {
        assert all[|pre| + i] == args[i] && all[|pre| + i + 1] == args[i + 1];
      }
    }
    var q := FirstMarker(all, 0);
    if q.Some? {
      assert q.value >= |pre| && MarkerAt(args, q.value - |pre|);
    }
  }

  lemma PrefixNoMarker(args: seq<string>, darwin: bool)
    ensures AUTO !in Prefix(args, darwin)
  {
    assert NO_DOMAIN[2] == 'n' && AUTO[2] == 'a' && TIMEOUT[2] == 't' && |THREE| == 1;
  }

  /** Whether a candidate comes back depends on the specification alone. */
  lemma PrefixRestartable(id: string, args: seq<string>, darwin: bool, note: string)
    ensures Restartable(Candidate(id, args, darwin)) <==> Restartable(Strategy(id, args, note))
  {
    PrefixTransparent(args, darwin);
    PrefixNoMarker(args, darwin);
    InFrontRestartable(id, Prefix(args, darwin), args, "signed ruleset candidate", note);
  }

  lemma InFrontRestartable(id: string, pre: seq<string>, args: seq<string>, note: string, other: string)
    requires Transparent(pre, args) && AUTO !in pre
    ensures Restartable(Strategy(id, pre + args, note)) <==> Restartable(Strategy(id, args, other))
  {
    MarkerMoves(pre, args);
    var m := FirstMarker(args, 0);
    if m.Some? {
      assert (pre + args)[..|pre| + m.value] == pre + args[..m.value];
      assert (pre + args)[|pre| + m.value + 2..] == args[m.value + 2..];
    }
  }

  /**
    For every specification: the candidate that was confirmed comes back from the store exactly when no
    process-wide flag of the specification is left without its value or it has no groups; and if its
    identifier carries the suffix, exactly when its own arguments are placed as wrapping places them.
   */
  lemma CandidateRoundTrip(id: string, args: seq<string>, darwin: bool)
    ensures var w := Wrapped(Candidate(id, args, darwin));
            SameRun(Wrapped(ForCache(w)), w) <==>
            if HasSuffix(id, SUFFIX) then Restartable(Strategy(id, args, "")) else !Dangling(args) || Parse(args).1 == []
  {
    WrapRoundTrip(Candidate(id, args, darwin));
    PrefixTransparent(args, darwin);
    PrefixRestartable(id, args, darwin, "");
  }

  /** Without a suffixed identifier and without values that read as flags, every allowed specification comes back. */
  lemma PlainSpecRoundTrip(id: string, args: seq<string>, darwin: bool)
    requires Allowed(args, darwin) && PlainValues(args) && !HasSuffix(id, SUFFIX)
    ensures var w := Wrapped(Candidate(id, args, darwin)); SameRun(Wrapped(ForCache(w)), w)
  {
    AcceptedNotDangling(args);
    CandidateRoundTrip(id, args, darwin);
  }

  // ---------------------------------------------------------------- specifications that fail

  lemma AcceptedPair(flag: string, value: string, rest: seq<string>)
    requires FlagName(flag) == flag && !Inline(flag) && ValueFlag(flag) && ValidValue(value) && Accepted(rest)
    ensures Accepted([flag, value] + rest)
  {
    assert ([flag, value] + rest)[2..] == rest;
  }

  lemma SplitFlag(split: string)
    requires split == "-s"
    ensures FlagName(split) == split && !Inline(split) && ValueFlag(split) && !IsGlobal(split) && !DarwinUnsupported(split) && split != AUTO
  {
    PlainName(split);
  }

  lemma AutoFlag(auto: string)
    requires auto == AUTO
    ensures FlagName(auto) == auto && !Inline(auto) && ValueFlag(auto) && !DarwinUnsupported(auto)
  {
    PlainName(auto);
  }

  lemma TriggersValue(triggers: string)
    requires triggers == TRIGGERS
    ensures ValidValue(triggers)
  {
  }

  lemma TriggersPlain(triggers: string)
    requires triggers == TRIGGERS
    ensures !DarwinUnsupported(triggers) && !IsGlobal(triggers)
  {
    NoDash(triggers);
  }

  lemma OneValue(one: string)
    requires one == "1"
    ensures ValidValue(one) && !IsGlobal(one) && !DarwinUnsupported(one)
  {
    NoDash(one);
  }

  /** Arguments allowed on every platform that no flag of the whole process is among. */
  predicate PlainSpec(args: seq<string>) {
    && args != [] && Accepted(args)
    && forall i :: 0 <= i < |args| ==> !DarwinUnsupported(args[i]) && !IsGlobal(args[i])
  }

  lemma PlainSpecMore(flag: string, value: string, rest: seq<string>)
    requires FlagName(flag) == flag && !Inline(flag) && ValueFlag(flag) && ValidValue(value) && (rest == [] || PlainSpec(rest))
    requires !DarwinUnsupported(flag) && !IsGlobal(flag) && !DarwinUnsupported(value) && !IsGlobal(value)
    ensures PlainSpec([flag, value] + rest)
  {
    var all := [flag, value] + rest;
    AcceptedPair(flag, value, rest);
    assert forall i :: 2 <= i < |all| ==> all[i] == rest[i - 2];
  }

  lemma {:induction false} PlainSpecFacts(args: seq<string>)
    requires forall i :: 0 <= i < |args| ==> !IsGlobal(args[i])
    ensures !Dangling(args)
  {
    if args != [] {
      PlainSpecFacts(args[1..]);
    }
  }

  lemma MarkerGroup(split: string, one: string)
    requires split == "-s" && one == "1"
    ensures PlainSpec([AUTO, TRIGGERS] + [split, one])
  {
    SplitFlag(split);
    OneValue(one);
    PlainSpecMore(split, one, []);
    assert [split, one] + [] == [split, one];
    MarkerIn([split, one]);
  }

  lemma MarkerIn(rest: seq<string>)
    requires PlainSpec(rest)
    ensures PlainSpec([AUTO, TRIGGERS] + rest)
  {
    AutoFlag(AUTO);
    TriggersValue(TRIGGERS);
    TriggersPlain(TRIGGERS);
    AutoNotGlobal(AUTO);
    PlainSpecMore(AUTO, TRIGGERS, rest);
  }

  /** An allowed specification with a suffixed identifier and its marker behind a group: nothing dangles, yet it changes. */
  lemma MisplacedExample(id: string, split: string, one: string, args: seq<string>, darwin: bool)
    requires id == "x+pass" && split == "-s" && one == "1" && args == [split, one] + ([AUTO, TRIGGERS] + [split, one])
    ensures Allowed(args, darwin) && !Dangling(args)
    ensures var w := Candidate(id, args, darwin); Wrapped(w) == w && !SameRun(Wrapped(ForCache(w)), w)
  {
    MarkerGroup(split, one);
    SplitFlag(split);
    OneValue(one);
    PlainSpecMore(split, one, [AUTO, TRIGGERS] + [split, one]);
    PlainSpecFacts(args);
    assert MarkerAt(args, 2);
    MisplacedSpec(id, args, darwin);
  }

  /** Every specification with a suffixed identifier and a group in front of its marker changes. */
  lemma MisplacedSpec(id: string, args: seq<string>, darwin: bool)
    requires HasSuffix(id, SUFFIX) && args != [] && !IsGlobal(args[0]) && FirstMarker(args, 0).Some? && FirstMarker(args, 0) != Some(0)
    ensures var w := Candidate(id, args, darwin); Wrapped(w) == w && !SameRun(Wrapped(ForCache(w)), w)
  {
    MisplacedMarker(Strategy(id, args, ""));
    CandidateRoundTrip(id, args, darwin);
  }

  /** An allowed specification whose identifier is suffixed twice. */
  lemma SuffixedTwice(id: string, split: string, one: string, args: seq<string>, darwin: bool)
    requires id == "x+pass+pass" && split == "-s" && one == "1" && args == [AUTO, TRIGGERS] + [split, one]
    ensures Allowed(args, darwin)
    ensures var w := Candidate(id, args, darwin); Wrapped(w) == w && !SameRun(Wrapped(ForCache(w)), w)
  {
    MarkerGroup(split, one);
    assert MarkerAt(args, 0);
    assert BaseID(id) == "x+pass";
    TwiceSpec(id, args, darwin);
  }

  /** Every specification with a marker and an identifier suffixed twice changes. */
  lemma TwiceSpec(id: string, args: seq<string>, darwin: bool)
    requires HasSuffix(id, SUFFIX) && HasSuffix(BaseID(id), SUFFIX) && FirstMarker(args, 0).Some?
    ensures var w := Candidate(id, args, darwin); Wrapped(w) == w && !SameRun(Wrapped(ForCache(w)), w)
  {
    CandidateRoundTrip(id, args, darwin);
  }

  lemma LongSplit(split: string)
    requires split == "--split"
    ensures FlagName(split) == split && !Inline(split) && ValueFlag(split) && !IsGlobal(split)
  {
    PlainName(split);
  }

  lemma TimeoutValue(timeout: string)
    requires timeout == TIMEOUT
    ensures ValidValue(timeout)
  {
  }

  /** An allowed specification that dangles: the validator reads the last flag as the value of the first. */
  lemma AcceptedButDangling(split: string, timeout: string, args: seq<string>)
    requires split == "--split" && timeout == TIMEOUT && args == [split, timeout] + []
    ensures Allowed(args, false) && Dangling(args)
    ensures var w := Wrapped(Candidate("x", args, false)); !SameRun(Wrapped(ForCache(w)), w)
  {
    LongSplit(split);
    TimeoutGlobal(timeout);
    TimeoutValue(timeout);
    AcceptedPair(split, timeout, []);
    assert args[1..] == [timeout];
    CandidateRoundTrip("x", args, false);
  }
}
