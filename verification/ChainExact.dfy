/**
  What wrapping, unwrapping and validating a strategy's arguments do, position by position and with the
  flags spelled out (offveil-core/internal/desync/chain.go, internal/engine/strategy_recovery.go).
 */
module ChainExact {
  import opened Options
  import opened Chain

  // ------------------------------------------------------------------ names of flags

  /** The argument is this flag, bare or with an inline value. */
  predicate Spells(arg: string, flag: string) { arg == flag || flag + "=" <= arg }

  predicate Bare(arg: string) { arg == "--timeout" || arg == "-T" }

  predicate ProcessWide(arg: string) {
    Spells(arg, "--no-domain") || Spells(arg, "-N") || Spells(arg, "--timeout") || Spells(arg, "-T")
  }

  lemma {:induction false} CutMeans(arg: string)
    ensures forall i :: 0 <= i < CutAt(arg) ==> arg[i] != '='
    ensures CutAt(arg) < |arg| ==> arg[CutAt(arg)] == '='
  {
    if arg != "" && arg[0] != '=' {
      CutMeans(arg[1..]);
    }
  }

  lemma NameIs(arg: string, flag: string)
    requires forall i :: 0 <= i < |flag| ==> flag[i] != '='
    ensures FlagName(arg) == flag <==> Spells(arg, flag)
    ensures FlagName(arg) == flag && !Inline(arg) <==> arg == flag
  {
    CutMeans(arg);
    var k := CutAt(arg);
    if FlagName(arg) == flag {
      assert |flag| == k && arg[..k] == flag;
      if k < |arg| {
        assert arg[..k + 1] == flag + "=";
      } else {
        assert arg == flag;
      }
    }
    if arg == flag {
      PlainName(arg);
    } else if flag + "=" <= arg {
      assert arg[|flag|] == (flag + "=")[|flag|] == '=';
      assert forall i :: 0 <= i < |flag| ==> arg[i] == (flag + "=")[i] == flag[i];
      assert k == |flag|;
      assert arg[..k] == flag;
    }
  }

  lemma NoDomainIs(arg: string, flag: string)
    requires flag == "--no-domain"
    ensures FlagName(arg) == flag <==> Spells(arg, flag)
  {
    NameIs(arg, flag);
  }

  lemma ShortIs(arg: string, flag: string)
    requires flag == "-N" || flag == "-T"
    ensures FlagName(arg) == flag <==> Spells(arg, flag)
    ensures FlagName(arg) == flag && !Inline(arg) <==> arg == flag
  {
    NameIs(arg, flag);
  }

  lemma TimeoutIs(arg: string, flag: string)
    requires flag == "--timeout"
    ensures FlagName(arg) == flag <==> Spells(arg, flag)
    ensures FlagName(arg) == flag && !Inline(arg) <==> arg == flag
  {
    NameIs(arg, flag);
  }

  lemma Tables(name: string, a: string, b: string, c: string, d: string)
    requires a == "--no-domain" && b == "-N" && c == "--timeout" && d == "-T"
    ensures (name in PLAIN_GLOBALS <==> name == a || name == b) && (name in VALUED_GLOBALS <==> name == c || name == d)
  {
    assert PLAIN_GLOBALS == [a, b] && VALUED_GLOBALS == [c, d];
  }

  lemma GlobalMeans(arg: string)
    ensures IsGlobal(arg) <==> ProcessWide(arg)
    ensures ValuedGlobal(arg) <==> Bare(arg)
  {
    Tables(FlagName(arg), "--no-domain", "-N", "--timeout", "-T");
    NoDomainIs(arg, "--no-domain");
    ShortIs(arg, "-N");
    TimeoutIs(arg, "--timeout");
    ShortIs(arg, "-T");
  }

  // ------------------------------------------------------------------ wrapping

  /** The argument at i is the value of a bare flag in front of it. */
  predicate IsValue(args: seq<string>, i: nat)
    requires i <= |args|
  {
    i > 0 && Bare(args[i - 1]) && !IsValue(args, i - 1)
  }

  /** The argument at i belongs to the whole process: a process-wide flag or the value of one. */
  predicate WholeAt(args: seq<string>, i: nat)
    requires i < |args|
  {
    IsValue(args, i) || ProcessWide(args[i])
  }

  /** The arguments from k on that belong, or do not belong, to the whole process, in order. */
  function Those(args: seq<string>, k: nat, whole: bool): seq<string>
    requires k <= |args|
    decreases |args| - k
  {
    if k == |args| then [] else (if WholeAt(args, k) == whole then [args[k]] else []) + Those(args, k + 1, whole)
  }

  lemma TwoWhole(args: seq<string>, k: nat)
    requires k + 1 < |args| && !IsValue(args, k) && Bare(args[k])
    ensures Those(args, k, true) == [args[k], args[k + 1]] + Those(args, k + 2, true) && Those(args, k, false) == Those(args, k + 2, false)
    ensures !IsValue(args, k + 2)
  {
    assert Spells(args[k], args[k]);
    assert IsValue(args, k + 1);
    var rest := Those(args, k + 2, true);
    assert [args[k]] + ([args[k + 1]] + rest) == [args[k], args[k + 1]] + rest;
  }

  lemma {:induction false} ParseIs(args: seq<string>, k: nat)
    requires k <= |args| && !IsValue(args, k)
    ensures Parse(args[k..]) == (Those(args, k, true), Those(args, k, false))
    decreases |args| - k
  {
    if k < |args| {
      var rest := args[k..];
      GlobalMeans(args[k]);
      assert rest[0] == args[k] && rest[1..] == args[k + 1..];
      if Bare(args[k]) && k + 1 < |args| {
        assert rest[1] == args[k + 1] && rest[2..] == args[k + 2..];
        TwoWhole(args, k);
        ParseIs(args, k + 2);
      } else {
        OneMore(args, k);
        if k + 1 < |args| {
          ParseIs(args, k + 1);
        } else {
          assert rest[1..] == [];
        }
      }
    }
  }

  lemma OneMore(args: seq<string>, k: nat)
    requires k < |args| && !IsValue(args, k)
    ensures Those(args, k, true) == if ProcessWide(args[k]) then [args[k]] + Those(args, k + 1, true) else Those(args, k + 1, true)
    ensures Those(args, k, false) == if ProcessWide(args[k]) then Those(args, k + 1, false) else [args[k]] + Those(args, k + 1, false)
  {
    assert [] + Those(args, k + 1, true) == Those(args, k + 1, true);
    assert [] + Those(args, k + 1, false) == Those(args, k + 1, false);
  }

  /**
    Wrapping, exactly: a strategy that carries the suffix or has nothing but process-wide arguments is
    left as it is; any other gets the suffix, and its process-wide arguments come first, then the
    marker, then everything else, each in order.
   */
  lemma WrapExact(s: Strategy)
    ensures Wrapped(s) ==
            if HasSuffix(s.id, "+pass") || Those(s.args, 0, false) == [] then s
            else Strategy(s.id + "+pass", Those(s.args, 0, true) + ["--auto", "torst,ssl_err"] + Those(s.args, 0, false),
                          "pass-through first; " + s.note)
  {
    ParseIs(s.args, 0);
    assert s.args[0..] == s.args;
  }

  /** Unwrapping, exactly: the suffix and the first marker go; without either nothing changes. */
  lemma UnwrapExact(s: Strategy, base: string, i: nat)
    ensures !HasSuffix(s.id, "+pass") ==> ForCache(s) == s
    ensures (forall k :: 0 <= k < |s.args| - 1 ==> !(s.args[k] == "--auto" && s.args[k + 1] == "torst,ssl_err")) ==> ForCache(s) == s
    ensures && s.id == base + "+pass" && i + 1 < |s.args| && s.args[i] == "--auto" && s.args[i + 1] == "torst,ssl_err"
            && (forall k :: 0 <= k < i ==> !(s.args[k] == "--auto" && s.args[k + 1] == "torst,ssl_err"))
            ==> ForCache(s) == Strategy(base, s.args[..i] + s.args[i + 2..], s.note)
  {
    var m := FirstMarker(s.args, 0);
    if m.Some? {
      assert MarkerAt(s.args, m.value);
    }
    if && s.id == base + "+pass" && i + 1 < |s.args| && s.args[i] == "--auto" && s.args[i + 1] == "torst,ssl_err"
       && (forall k :: 0 <= k < i ==> !(s.args[k] == "--auto" && s.args[k + 1] == "torst,ssl_err")) {
      assert MarkerAt(s.args, i);
      assert m == Some(i);
      assert BaseID(s.id) == base;
    }
  }

  // ------------------------------------------------------------------ validating

  /** The argument at i is the value of a flag in front of it that takes one. */
  predicate Taken(args: seq<string>, i: nat)
    requires i <= |args|
  {
    i > 0 && !Taken(args, i - 1) && ValueFlag(FlagName(args[i - 1])) && !Inline(args[i - 1]) && !PlainFlag(FlagName(args[i - 1]))
  }

  /** The flag at i is a known one, with no value, its inline value or the next argument, whichever it takes. */
  predicate FlagOK(args: seq<string>, i: nat)
    requires i < |args|
  {
    var name := FlagName(args[i]);
    if PlainFlag(name) then !Inline(args[i])
    else && ValueFlag(name)
         && if Inline(args[i]) then ValidValue(args[i][CutAt(args[i]) + 1..]) else i + 1 < |args| && ValidValue(args[i + 1])
  }

  lemma {:induction false} AcceptedFrom(args: seq<string>, k: nat)
    requires k <= |args| && !Taken(args, k)
    ensures Accepted(args[k..]) <==> forall i :: k <= i < |args| && !Taken(args, i) ==> FlagOK(args, i)
    decreases |args| - k
  {
    if k < |args| {
      var rest := args[k..];
      assert rest[0] == args[k] && rest[1..] == args[k + 1..];
      if !FlagOK(args, k) {
        assert k + 1 < |args| ==> rest[1] == args[k + 1];
      } else if Taken(args, k + 1) {
        assert rest[1] == args[k + 1] && rest[2..] == args[k + 2..];
        AcceptedFrom(args, k + 2);
        assert forall i :: k <= i < |args| && !Taken(args, i) ==> i == k || i >= k + 2;
      } else {
        AcceptedFrom(args, k + 1);
        assert forall i :: k <= i < |args| && !Taken(args, i) ==> i == k || i >= k + 1;
      }
    }
  }

  /** A list is accepted exactly when every argument that is not a value is a known flag with the value it takes. */
  lemma AcceptedIff(args: seq<string>)
    ensures Accepted(args) <==> forall i :: 0 <= i < |args| && !Taken(args, i) ==> FlagOK(args, i)
  {
    AcceptedFrom(args, 0);
    assert args[0..] == args;
  }
}
