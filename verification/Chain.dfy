/**
  Strategy argument lists: the pass-through wrapper of offveil-core/internal/desync/chain.go
  and its inverse in offveil-core/internal/engine/strategy_recovery.go.
 */
module Chain {
  import opened Options

  datatype Strategy = Strategy(id: string, args: seq<string>, note: string)

  const SUFFIX: string := "+pass"
  const AUTO: string := "--auto"
  const TRIGGERS: string := "torst,ssl_err"
  const MARKER: seq<string> := ["--auto", "torst,ssl_err"]

  // --------------------------------------------------------- flags and values

  /** Index of the first '=' in arg, or the length of arg. */
  function CutAt(arg: string): (k: nat)
    ensures k <= |arg|
  {
    if arg == "" then 0 else if arg[0] == '=' then 0 else 1 + CutAt(arg[1..])
  }

  function FlagName(arg: string): string { arg[..CutAt(arg)] }

  predicate Inline(arg: string) { CutAt(arg) < |arg| }

  const PLAIN_GLOBALS: seq<string> := ["--no-domain", "-N"]
  const VALUED_GLOBALS: seq<string> := ["--timeout", "-T"]

  predicate IsGlobal(arg: string) { FlagName(arg) in PLAIN_GLOBALS || FlagName(arg) in VALUED_GLOBALS }

  predicate ValuedGlobal(arg: string) { FlagName(arg) in VALUED_GLOBALS && !Inline(arg) }

  predicate HasSuffix(s: string, suffix: string) {
    |suffix| <= |s| && s[|s| - |suffix|..] == suffix
  }

  predicate IsPassThrough(s: Strategy) { HasSuffix(s.id, SUFFIX) }

  function BaseID(id: string): string {
    if HasSuffix(id, SUFFIX) then id[..|id| - |SUFFIX|] else id
  }

  // -------------------------------------------------------- the two rewrites

  /** Process-wide flags with their values, and everything else, each in argument order. */
  function Parse(args: seq<string>): (seq<string>, seq<string>) {
    if args == [] then ([], [])
    else if !IsGlobal(args[0]) then
      var (globals, groups) := Parse(args[1..]);
      (globals, [args[0]] + groups)
    else if ValuedGlobal(args[0]) && |args| > 1 then
      var (globals, groups) := Parse(args[2..]);
      ([args[0], args[1]] + globals, groups)
    else
      var (globals, groups) := Parse(args[1..]);
      ([args[0]] + globals, groups)
  }

  /** The list ends in a process-wide flag whose value is missing. */
  predicate Dangling(args: seq<string>) {
    if args == [] then false
    else if ValuedGlobal(args[0]) then |args| == 1 || Dangling(args[2..])
    else Dangling(args[1..])
  }

  function Wrapped(s: Strategy): Strategy {
    if IsPassThrough(s) || s.args == [] then s
    else
      var (globals, groups) := Parse(s.args);
      if groups == [] then s
      else Strategy(s.id + SUFFIX, globals + MARKER + groups, "pass-through first; " + s.note)
  }

  predicate MarkerAt(args: seq<string>, i: int) {
    0 <= i && i + 1 < |args| && args[i] == AUTO && args[i + 1] == TRIGGERS
  }

  function FirstMarker(args: seq<string>, from: nat): (r: Option<nat>)
    requires from <= |args|
    ensures r.Some? ==> MarkerAt(args, r.value) && from <= r.value && forall i :: from <= i < r.value ==> !MarkerAt(args, i)
    ensures r.None? ==> forall i :: from <= i ==> !MarkerAt(args, i)
    decreases |args| - from
  {
    if from == |args| then None
    else if MarkerAt(args, from) then Some(from)
    else FirstMarker(args, from + 1)
  }

  /** strategyForCache: the first marker is removed from a wrapped strategy. */
  function ForCache(s: Strategy): Strategy {
    if !IsPassThrough(s) then s
    else match FirstMarker(s.args, 0)
      case None => s
      case Some(i) => Strategy(BaseID(s.id), s.args[..i] + s.args[i + 2..], s.note)
  }

  method PassThroughFirst(s: Strategy) returns (r: Strategy)
    ensures r == Wrapped(s)
  {
    if IsPassThrough(s) || |s.args| == 0 {
      return s;
    }
    var globals: seq<string>, groups: seq<string> := [], [];
    var i := 0;
    assert s.args[0..] == s.args && [] + Parse(s.args).0 == Parse(s.args).0 && [] + Parse(s.args).1 == Parse(s.args).1;
    while i < |s.args|
      invariant 0 <= i <= |s.args|
      invariant var rest := Parse(s.args[i..]); Parse(s.args) == (globals + rest.0, groups + rest.1)
    {
      var arg := s.args[i];
      assert s.args[i..][0] == arg && s.args[i..][1..] == s.args[i + 1..];
      if !IsGlobal(arg) {
        ghost var rest := Parse(s.args[i + 1..]);
        assert groups + ([arg] + rest.1) == groups + [arg] + rest.1;
        groups := groups + [arg];
        i := i + 1;
        continue;
      }
      if ValuedGlobal(arg) && i + 1 < |s.args| {
        ghost var rest := Parse(s.args[i + 2..]);
        assert s.args[i..][1] == s.args[i + 1] && s.args[i..][2..] == s.args[i + 2..];
        assert globals + ([arg, s.args[i + 1]] + rest.0) == globals + [arg] + [s.args[i + 1]] + rest.0;
        globals := globals + [arg] + [s.args[i + 1]];
        i := i + 2;
      } else {
        ghost var rest := Parse(s.args[i + 1..]);
        assert globals + ([arg] + rest.0) == globals + [arg] + rest.0;
        globals := globals + [arg];
        i := i + 1;
      }
    }
    assert s.args[i..] == [] && globals + [] == globals && groups + [] == groups;
    if |groups| == 0 {
      return s;
    }
    r := Strategy(s.id + SUFFIX, globals + MARKER + groups, "pass-through first; " + s.note);
  }

  method StrategyForCache(s: Strategy) returns (r: Strategy)
    ensures r == ForCache(s)
  {
    if !IsPassThrough(s) {
      return s;
    }
    for i := 0 to |s.args|
      invariant FirstMarker(s.args, 0) == FirstMarker(s.args, i)
    {
      if s.args[i] == AUTO && i + 1 < |s.args| && s.args[i + 1] == TRIGGERS {
        return Strategy(BaseID(s.id), s.args[..i] + s.args[i + 2..], s.note);
      }
    }
    r := s;
  }

  // ------------------------------------------------ the rewrite is a reordering

  /** s is a riffle of a and b: each keeps its own order and nothing is added or lost. */
  ghost predicate Riffle(a: seq<string>, b: seq<string>, s: seq<string>) {
    if s == [] then a == [] && b == []
    else
      || (a != [] && a[0] == s[0] && Riffle(a[1..], b, s[1..]))
      || (b != [] && b[0] == s[0] && Riffle(a, b[1..], s[1..]))
  }

  lemma {:induction false} ParseIsRiffle(args: seq<string>)
    ensures var (globals, groups) := Parse(args);
            && Riffle(globals, groups, args)
            && (forall i :: 0 <= i < |groups| ==> !IsGlobal(groups[i]))
  {
    if args != [] {
      if !IsGlobal(args[0]) {
        ParseIsRiffle(args[1..]);
        var (globals, groups) := Parse(args[1..]);
        assert ([args[0]] + groups)[1..] == groups;
      } else if ValuedGlobal(args[0]) && |args| > 1 {
        ParseIsRiffle(args[2..]);
        var (globals, groups) := Parse(args[2..]);
        var a := [args[0], args[1]] + globals;
        assert a[1..][1..] == globals && args[1..][1..] == args[2..];
        assert Riffle(a[1..], groups, args[1..]);
      } else {
        ParseIsRiffle(args[1..]);
        var (globals, groups) := Parse(args[1..]);
        assert ([args[0]] + globals)[1..] == globals;
      }
    }
  }

  lemma {:induction false} RiffleKeepsAll(a: seq<string>, b: seq<string>, s: seq<string>)
    requires Riffle(a, b, s)
    ensures multiset(a) + multiset(b) == multiset(s)
  {
    if s != [] {
      assert s == [s[0]] + s[1..];
      if a != [] && a[0] == s[0] && Riffle(a[1..], b, s[1..]) {
        RiffleKeepsAll(a[1..], b, s[1..]);
        assert a == [a[0]] + a[1..];
      } else {
        RiffleKeepsAll(a, b[1..], s[1..]);
        assert b == [b[0]] + b[1..];
      }
    }
  }

  /** Wrapping only reorders the arguments around one inserted marker. */
  lemma WrapReorders(s: Strategy)
    requires Wrapped(s) != s
    ensures exists globals, groups ::
              && Wrapped(s).args == globals + MARKER + groups
              && groups != []
              && Riffle(globals, groups, s.args)
              && multiset(globals) + multiset(groups) == multiset(s.args)
              && (forall i :: 0 <= i < |groups| ==> !IsGlobal(groups[i]))
  {
    var (globals, groups) := Parse(s.args);
    ParseIsRiffle(s.args);
    RiffleKeepsAll(globals, groups, s.args);
    assert Wrapped(s).args == globals + MARKER + groups;
  }

  // ------------------------------------------------------------ the round trip

  /** A list of process-wide flags, all of whose values are present. */
  predicate GlobalRun(g: seq<string>) {
    if g == [] then true
    else if ValuedGlobal(g[0]) then |g| > 1 && GlobalRun(g[2..])
    else IsGlobal(g[0]) && GlobalRun(g[1..])
  }

  lemma {:induction false} ParsedGlobals(args: seq<string>)
    requires !Dangling(args)
    ensures GlobalRun(Parse(args).0)
  {
    if args != [] {
      if ValuedGlobal(args[0]) {
        ParsedGlobals(args[2..]);
        assert ([args[0], args[1]] + Parse(args[2..]).0)[2..] == Parse(args[2..]).0;
      } else {
        ParsedGlobals(args[1..]);
        assert ([args[0]] + Parse(args[1..]).0)[1..] == Parse(args[1..]).0;
      }
    }
  }

  /** When a value is missing, the globals are complete except for their last flag. */
  lemma {:induction false} DanglingGlobals(args: seq<string>)
    requires Dangling(args)
    ensures var g := Parse(args).0; g != [] && GlobalRun(g[..|g| - 1]) && ValuedGlobal(g[|g| - 1])
  {
    var g := Parse(args).0;
    if ValuedGlobal(args[0]) {
      if |args| == 1 {
        assert args[1..] == [] && g == [args[0]];
      } else {
        DanglingGlobals(args[2..]);
        var t := Parse(args[2..]).0;
        assert g == [args[0], args[1]] + t;
        assert g[..|g| - 1][2..] == t[..|t| - 1];
      }
    } else {
      DanglingGlobals(args[1..]);
      var t := Parse(args[1..]).0;
      if IsGlobal(args[0]) {
        assert g == [args[0]] + t;
        assert g[..|g| - 1][1..] == t[..|t| - 1];
      }
    }
  }

  lemma {:induction false} ParseGroups(r: seq<string>)
    requires forall i :: 0 <= i < |r| ==> !IsGlobal(r[i])
    ensures Parse(r) == ([], r)
  {
    if r != [] {
      ParseGroups(r[1..]);
      assert r == [r[0]] + r[1..];
    }
  }

  lemma {:induction false} ParseAfterGlobals(g: seq<string>, rest: seq<string>)
    requires GlobalRun(g)
    ensures Parse(g + rest) == (g + Parse(rest).0, Parse(rest).1)
  {
    if g == [] {
      assert g + rest == rest && [] + Parse(rest).0 == Parse(rest).0;
    } else if ValuedGlobal(g[0]) {
      ParseAfterGlobals(g[2..], rest);
      assert (g + rest)[2..] == g[2..] + rest;
      assert g + Parse(rest).0 == [g[0], g[1]] + (g[2..] + Parse(rest).0);
    } else {
      ParseAfterGlobals(g[1..], rest);
      assert (g + rest)[1..] == g[1..] + rest;
      assert g + Parse(rest).0 == [g[0]] + (g[1..] + Parse(rest).0);
    }
  }

  lemma GlobalIsNoMarker(arg: string)
    requires IsGlobal(arg)
    ensures arg != AUTO && arg != TRIGGERS
  {
    AutoNotGlobal(AUTO);
    NoDash(TRIGGERS);
  }

  lemma AutoNotGlobal(auto: string)
    requires auto == AUTO
    ensures !IsGlobal(auto)
  {
    NoEquals(auto);
    assert auto[..|auto|] == auto && |auto| == 6;
  }

  /** Every flag name starts with a dash. */
  lemma NoDash(arg: string)
    requires arg != "" && arg[0] != '=' && arg[0] != '-'
    ensures !IsGlobal(arg) && FlagName(arg) != "" && FlagName(arg)[0] != '-'
  {
    assert CutAt(arg) > 0;
    assert forall g :: g in PLAIN_GLOBALS || g in VALUED_GLOBALS ==> g != "" && g[0] == '-';
  }

  lemma {:induction false} NoEquals(s: string)
    requires forall i :: 0 <= i < |s| ==> s[i] != '='
    ensures CutAt(s) == |s|
  {
    if s != "" {
      NoEquals(s[1..]);
    }
  }

  /** No marker starts inside the globals, even with a value that looks like half of one. */
  lemma {:induction false} NoMarkerInGlobals(args: seq<string>, rest: seq<string>)
    requires rest == [] || rest[0] != TRIGGERS
    ensures var g := Parse(args).0; forall i :: 0 <= i < |g| ==> !MarkerAt(g + rest, i)
  {
    if args != [] {
      var g := Parse(args).0;
      if !IsGlobal(args[0]) {
        NoMarkerInGlobals(args[1..], rest);
        assert g == Parse(args[1..]).0;
      } else {
        GlobalIsNoMarker(args[0]);
        var n := if ValuedGlobal(args[0]) && |args| > 1 then 2 else 1;
        var t := Parse(args[n..]).0;
        NoMarkerInGlobals(args[n..], rest);
        assert g + rest == args[..n] + (t + rest);
        FirstIsNoTrigger(args[n..], rest);
        forall i | 0 <= i < |g|
          ensures !MarkerAt(g + rest, i)
        {
          if i >= n {
            assert !MarkerAt(t + rest, i - n);
          }
        }
      }
    }
  }

  lemma {:induction false} FirstIsNoTrigger(args: seq<string>, rest: seq<string>)
    requires rest == [] || rest[0] != TRIGGERS
    ensures var t := Parse(args).0 + rest; t == [] || t[0] != TRIGGERS
  {
    if args != [] {
      if !IsGlobal(args[0]) {
        FirstIsNoTrigger(args[1..], rest);
      } else {
        GlobalIsNoMarker(args[0]);
      }
    }
  }

  lemma SuffixAdded(id: string)
    ensures HasSuffix(id + SUFFIX, SUFFIX) && BaseID(id + SUFFIX) == id
  {
    assert (id + SUFFIX)[|id|..] == SUFFIX && (id + SUFFIX)[..|id|] == id;
  }

  /** The marker that strategyForCache removes is the one PassThroughFirst inserted; no flag need have a value. */
  lemma UnwrapRemovesMarker(s: Strategy)
    requires Wrapped(s) != s
    ensures var (globals, groups) := Parse(s.args);
            && FirstMarker(Wrapped(s).args, 0) == Some(|globals|)
            && ForCache(Wrapped(s)).id == s.id
            && ForCache(Wrapped(s)).args == globals + groups
  {
    var (globals, groups) := Parse(s.args);
    var args := globals + MARKER + groups;
    assert args == globals + (MARKER + groups);
    NoMarkerInGlobals(s.args, MARKER + groups);
    assert MarkerAt(args, |globals|);
    SuffixAdded(s.id);
    assert args[..|globals|] == globals && args[|globals| + 2..] == groups;
  }

  /** Wrapping twice is wrapping once. */
  lemma WrapIdempotent(s: Strategy)
    ensures Wrapped(Wrapped(s)) == Wrapped(s)
  {
    SuffixAdded(s.id);
  }

  /** Two strategies that start the helper in the same way: the note is only a comment. */
  predicate SameRun(a: Strategy, b: Strategy) { a.id == b.id && a.args == b.args }

  lemma WrapSameRun(a: Strategy, b: Strategy)
    requires SameRun(a, b)
    ensures SameRun(Wrapped(a), Wrapped(b))
  {
  }

  lemma RewrapStable(s: Strategy)
    requires Wrapped(s) != s && !Dangling(s.args)
    ensures SameRun(Wrapped(ForCache(Wrapped(s))), Wrapped(s))
  {
    var (globals, groups) := Parse(s.args);
    UnwrapRemovesMarker(s);
    ParsedGlobals(s.args);
    ParseIsRiffle(s.args);
    ParseGroups(groups);
    ParseAfterGlobals(globals, groups);
    assert globals + [] == globals;
  }

  /** A dangling flag takes the first group argument for its value. */
  lemma TakesNext(flag: string, groups: seq<string>)
    requires ValuedGlobal(flag) && groups != [] && forall i :: 0 <= i < |groups| ==> !IsGlobal(groups[i])
    ensures Parse([flag] + groups) == ([flag, groups[0]], groups[1..])
  {
    var tail := [flag] + groups;
    ParseGroups(groups[1..]);
    PairFirst(tail);
    assert tail[2..] == groups[1..];
    assert [flag, groups[0]] + [] == [flag, groups[0]];
  }

  lemma PairFirst(args: seq<string>)
    requires |args| > 1 && ValuedGlobal(args[0])
    ensures Parse(args) == ([args[0], args[1]] + Parse(args[2..]).0, Parse(args[2..]).1)
  {
  }

  /** With a missing value, reading the unwrapped list takes the first group argument for that value. */
  lemma {:induction false} DanglingReparse(args: seq<string>)
    requires Dangling(args) && Parse(args).1 != []
    ensures var (globals, groups) := Parse(args); Parse(globals + groups) == (globals + [groups[0]], groups[1..])
  {
    var globals, groups := Parse(args).0, Parse(args).1;
    DanglingGlobals(args);
    ParseIsRiffle(args);
    var n := |globals| - 1;
    var g, flag := globals[..n], globals[n];
    TakesNext(flag, groups);
    ParseAfterGlobals(g, [flag] + groups);
    Regrouped(globals, groups);
  }

  lemma Regrouped(globals: seq<string>, groups: seq<string>)
    requires globals != [] && groups != []
    ensures var n := |globals| - 1;
            && globals + groups == globals[..n] + ([globals[n]] + groups)
            && globals[..n] + [globals[n], groups[0]] == globals + [groups[0]]
  {
  }

  lemma RewrapBreaks(s: Strategy)
    requires Wrapped(s) != s && Dangling(s.args)
    ensures !SameRun(Wrapped(ForCache(Wrapped(s))), Wrapped(s))
  {
    var (globals, groups) := Parse(s.args);
    UnwrapRemovesMarker(s);
    DanglingReparse(s.args);
    var again := globals + [groups[0]];
    var rewrapped := Wrapped(ForCache(Wrapped(s)));
    if groups[1..] == [] {
      assert rewrapped.id == s.id;
      assert |Wrapped(s).id| == |s.id| + |SUFFIX|;
    } else {
      assert rewrapped.args == again + MARKER + groups[1..];
      assert rewrapped.args[|globals| + 1] == AUTO;
      assert Wrapped(s).args[|globals| + 1] == TRIGGERS;
    }
  }

  // ------------------------------------------- every strategy a helper may be running

  predicate NoGlobals(args: seq<string>) { forall i :: 0 <= i < |args| ==> !IsGlobal(args[i]) }

  /** The marker at i stands where wrapping would put it: after complete globals and before groups only. */
  predicate Placed(args: seq<string>, i: nat)
    requires MarkerAt(args, i)
  {
    GlobalRun(args[..i]) && args[i + 2..] != [] && NoGlobals(args[i + 2..])
  }

  /** Exactly the strategies that come back from the store as they went in. */
  predicate Restartable(w: Strategy) {
    if !IsPassThrough(w) then Parse(w.args).1 == []
    else match FirstMarker(w.args, 0)
      case None => true
      case Some(i) => Placed(w.args, i) && !HasSuffix(BaseID(w.id), SUFFIX)
  }

  /** A list splits into its globals and groups in place exactly when the globals are complete and lead. */
  lemma SplitsInPlaceIff(a: seq<string>, c: seq<string>)
    requires c != []
    ensures Parse(a + c) == (a, c) <==> GlobalRun(a) && NoGlobals(c)
  {
    if GlobalRun(a) && NoGlobals(c) {
      ParseGroups(c);
      ParseAfterGlobals(a, c);
      assert a + [] == a;
    }
    if Parse(a + c) == (a, c) {
      ParseIsRiffle(a + c);
      if Dangling(a + c) {
        DanglingReparse(a + c);
      } else {
        ParsedGlobals(a + c);
      }
    }
  }

  /** Wrapping never puts its marker behind the first one that was there. */
  lemma MarkerStays(a: seq<string>, c: seq<string>)
    requires forall i :: 0 <= i < |a| ==> !MarkerAt(a + MARKER + c, i)
    ensures Parse(a + c).0 + MARKER + Parse(a + c).1 == a + MARKER + c ==> Parse(a + c) == (a, c)
  {
    var g, r := Parse(a + c).0, Parse(a + c).1;
    var all, rest := a + MARKER + c, MARKER + r;
    if g + MARKER + r == all {
      assert all == g + rest;
      assert MarkerAt(all, |g|) && MarkerAt(all, |a|);
      assert |a| <= |g|;
      if |a| < |g| {
        NoMarkerAt(a + c, rest, |a|);
      }
      SamePlace(g, r, a, c);
    }
  }

  lemma NoMarkerAt(args: seq<string>, rest: seq<string>, i: nat)
    requires (rest == [] || rest[0] != TRIGGERS) && i < |Parse(args).0|
    ensures !MarkerAt(Parse(args).0 + rest, i)
  {
    NoMarkerInGlobals(args, rest);
  }

  lemma SamePlace(g: seq<string>, r: seq<string>, a: seq<string>, c: seq<string>)
    requires g + MARKER + r == a + MARKER + c && |g| == |a|
    ensures g == a && r == c
  {
    assert g == (g + MARKER + r)[..|g|] && a == (a + MARKER + c)[..|a|];
    assert r == (g + MARKER + r)[|g| + 2..] && c == (a + MARKER + c)[|a| + 2..];
  }

  lemma LongerID(id: string)
    requires HasSuffix(id, SUFFIX)
    ensures BaseID(id) + SUFFIX == id && BaseID(id) != id
  {
    assert id == id[..|id| - |SUFFIX|] + id[|id| - |SUFFIX|..];
  }

  /** A marked strategy comes back unchanged exactly when its first marker is where wrapping would put it. */
  lemma MarkedRestartIff(w: Strategy, i: nat)
    requires IsPassThrough(w) && FirstMarker(w.args, 0) == Some(i)
    ensures SameRun(Wrapped(ForCache(w)), w) <==> Placed(w.args, i) && !HasSuffix(BaseID(w.id), SUFFIX)
  {
    var a, c := w.args[..i], w.args[i + 2..];
    assert w.args == a + MARKER + c;
    LongerID(w.id);
    var base := ForCache(w);
    if IsPassThrough(base) || base.args == [] || Parse(a + c).1 == [] {
      assert Wrapped(base) == base && base.id != w.id;
      if Placed(w.args, i) {
        SplitsInPlaceIff(a, c);
      }
    } else {
      var (g, r) := Parse(a + c);
      assert Wrapped(base).args == g + MARKER + r;
      MarkerStays(a, c);
      if c != [] {
        SplitsInPlaceIff(a, c);
      }
    }
  }

  /**
    Main result, for every strategy a helper may be running: what the store keeps of it starts the
    same helper again exactly when it is restartable.
   */
  lemma RestartIff(w: Strategy)
    ensures SameRun(Wrapped(ForCache(w)), w) <==> Restartable(w)
  {
    if IsPassThrough(w) {
      var m := FirstMarker(w.args, 0);
      if m.Some? {
        MarkedRestartIff(w, m.value);
      }
    } else if w.args != [] && Parse(w.args).1 != [] {
      assert |Wrapped(w).id| == |w.id| + |SUFFIX|;
    }
  }

  /**
    Wrapping, caching and wrapping again gives the same strategy exactly when no process-wide flag is
    left without its value or there was nothing to wrap; for an identifier that carries the suffix
    from the start, exactly when its arguments are placed as wrapping places them.
   */
  lemma WrapRoundTrip(s: Strategy)
    ensures SameRun(Wrapped(ForCache(Wrapped(s))), Wrapped(s)) <==>
            if IsPassThrough(s) then Restartable(s) else !Dangling(s.args) || Parse(s.args).1 == []
  {
    if IsPassThrough(s) {
      RestartIff(s);
    } else if s.args != [] && Parse(s.args).1 != [] {
      SuffixAdded(s.id);
      assert |Wrapped(s).id| == |s.id| + |SUFFIX|;
      assert Wrapped(s) != s;
      if Dangling(s.args) {
        RewrapBreaks(s);
      } else {
        RewrapStable(s);
      }
    }
  }

  /** The store keeps only identifier and arguments; a start that reads them back runs the same helper or not, exactly so. */
  lemma CachedRestart(w: Strategy, loaded: Strategy)
    requires SameRun(loaded, ForCache(w))
    ensures SameRun(Wrapped(loaded), w) <==> Restartable(w)
  {
    RestartIff(w);
    WrapSameRun(loaded, ForCache(w));
  }

  /** A suffixed strategy whose marker follows a group flag does not come back as it was. */
  lemma MisplacedMarker(s: Strategy)
    requires IsPassThrough(s) && s.args != [] && !IsGlobal(s.args[0])
    requires FirstMarker(s.args, 0).Some? && FirstMarker(s.args, 0) != Some(0)
    ensures Wrapped(s) == s && !Restartable(s) && !SameRun(Wrapped(ForCache(Wrapped(s))), Wrapped(s))
  {
    RestartIff(s);
  }

  // ------------------------------------------------------ remote argument lists

  predicate PlainFlag(name: string) { name == "--no-domain" || name == "-N" }

  predicate ValueFlag(name: string) {
    || name == "--split" || name == "-s" || name == "--disorder" || name == "-d" || name == "--oob" || name == "-o"
    || name == "--disoob" || name == "-q" || name == "--fake" || name == "-f" || name == "--ttl" || name == "-t"
    || name == "--fake-offset" || name == "-O" || name == "--fake-sni" || name == "-n" || name == "--fake-tls-mod" || name == "-Q"
    || name == "--mod-http" || name == "-M" || name == "--tlsrec" || name == "-r" || name == "--tlsminor" || name == "-m"
    || name == "--auto" || name == "-A" || name == "--auto-mode" || name == "-L" || name == "--proto" || name == "-K"
    || name == "--pf" || name == "-V" || name == "--round" || name == "-R" || name == "--udp-fake" || name == "-a"
    || name == "--oob-data" || name == "-e" || name == "--timeout" || name == "-T"
  }

  predicate ValueChar(c: char) {
    'a' <= c <= 'z' || 'A' <= c <= 'Z' || '0' <= c <= '9' || c == '-'
    || c == '+' || c == ':' || c == ',' || c == '.' || c == '_' || c == '=' || c == '?' || c == '#' || c == '*'
  }

  predicate ValidValue(v: string) {
    0 < |v| <= 64 && forall i :: 0 <= i < |v| ==> ValueChar(v[i])
  }

  /** The lists the validator accepts, flag by flag. */
  predicate Accepted(args: seq<string>) {
    if args == [] then true
    else if PlainFlag(FlagName(args[0])) then !Inline(args[0]) && Accepted(args[1..])
    else if !ValueFlag(FlagName(args[0])) then false
    else if Inline(args[0]) then ValidValue(args[0][CutAt(args[0]) + 1..]) && Accepted(args[1..])
    else |args| > 1 && ValidValue(args[1]) && Accepted(args[2..])
  }

  predicate DarwinName(name: string) {
    || name == "--fake" || name == "--ttl" || name == "--disorder" || name == "--disoob" || name == "--timeout" || name == "--udp-fake"
    || name == "--def-ttl"
  }

  /** Flags that need socket operations macOS does not have; short flags are known by their letter. */
  predicate DarwinUnsupported(arg: string) {
    DarwinName(FlagName(arg)) || (|arg| > 1 && arg[0] == '-' && arg[1] != '-' && arg[1] in "ftdqTag")
  }

  method ContainsDarwinUnsupported(args: seq<string>) returns (found: bool)
    ensures found <==> exists i :: 0 <= i < |args| && DarwinUnsupported(args[i])
  {
    for i := 0 to |args|
      invariant forall j :: 0 <= j < i ==> !DarwinUnsupported(args[j])
    {
      if DarwinUnsupported(args[i]) {
        return true;
      }
    }
    return false;
  }

  method ValidateStrategyArgs(args: seq<string>, darwin: bool) returns (ok: bool)
    ensures ok <==> args != [] && Accepted(args) && !(darwin && exists i :: 0 <= i < |args| && DarwinUnsupported(args[i]))
  {
    ok := ValidateFlags(args);
    if ok && darwin {
      var found := ContainsDarwinUnsupported(args);
      ok := !found;
    }
  }

  method ValidateFlags(args: seq<string>) returns (ok: bool)
    ensures ok <==> args != [] && Accepted(args)
  {
    if |args| == 0 {
      return false;
    }
    var i := 0;
    while i < |args|
      invariant 0 <= i <= |args|
      invariant Accepted(args) == Accepted(args[i..])
    {
      var name := FlagName(args[i]);
      assert args[i..][1..] == args[i + 1..];
      if !PlainFlag(name) && !ValueFlag(name) {
        return false;
      }
      if PlainFlag(name) {
        if Inline(args[i]) {
          return false;
        }
        i := i + 1;
        continue;
      }
      var value: string;
      if !Inline(args[i]) {
        if i + 1 >= |args| {
          return false;
        }
        assert args[i..][2..] == args[i + 2..];
        value := args[i + 1];
        if !ValidValue(value) {
          return false;
        }
        i := i + 2;
      } else {
        value := args[i][CutAt(args[i]) + 1..];
        if !ValidValue(value) {
          return false;
        }
        i := i + 1;
      }
    }
    return true;
  }

  /** No flag of the list was given a bare process-wide flag name as its value. */
  predicate PlainValues(args: seq<string>) {
    if args == [] then true
    else if ValueFlag(FlagName(args[0])) && !Inline(args[0]) && |args| > 1 then
      (IsGlobal(args[0]) || !ValuedGlobal(args[1])) && PlainValues(args[2..])
    else PlainValues(args[1..])
  }

  /** An accepted list keeps the round trip, unless a value reads as a process-wide flag. */
  lemma {:induction false} AcceptedNotDangling(args: seq<string>)
    requires Accepted(args) && PlainValues(args)
    ensures !Dangling(args)
  {
    if args != [] {
      if ValueFlag(FlagName(args[0])) && !Inline(args[0]) {
        AcceptedNotDangling(args[2..]);
        if !ValuedGlobal(args[0]) {
          assert args[1..][1..] == args[2..];
          assert !IsGlobal(args[0]);
          assert Dangling(args) == Dangling(args[1..]);
        }
      } else {
        AcceptedNotDangling(args[1..]);
      }
    }
  }

  lemma PlainName(s: string)
    requires forall i :: 0 <= i < |s| ==> s[i] != '='
    ensures FlagName(s) == s && !Inline(s)
  {
    NoEquals(s);
    assert s[..|s|] == s;
  }
}
