/**
  The verification of a strategy swap (offveil-core/internal/engine/strategy_recovery.go): what the
  helper, the control hosts and the gateway must have done before a strategy is adopted.
 */
module EngineVerdict {
  import opened Options
  import opened EngineCore
  import opened EngineRuns

  /** Two different control hosts opened. */
  predicate TwoOpen(controls: seq<bool>) { exists i, j :: 0 <= i < j < |controls| && controls[i] && controls[j] }

  /** helperControlQuorum counts in whatever order the probes end. */
  method HelperControlQuorum(controls: seq<bool>) returns (ok: bool)
    ensures ok == ControlQuorum(controls)
    ensures ok <==> exists i, j :: 0 <= i < j < |controls| && controls[i] && controls[j]
  {
    var passed := 0;
    for i := 0 to |controls|
      invariant passed == Passes(controls[..i])
    {
      assert controls[..i + 1][..i] == controls[..i];
      if controls[i] {
        passed := passed + 1;
      }
    }
    assert controls[..|controls|] == controls;
    ok := |controls| >= 2 && passed >= 2;
    QuorumMeans(controls);
  }

  lemma {:induction false} AtLeastOne(controls: seq<bool>, i: nat)
    requires i < |controls| && controls[i]
    ensures Passes(controls) >= 1
  {
    if i < |controls| - 1 {
      AtLeastOne(controls[..|controls| - 1], i);
    }
  }

  lemma {:induction false} AtLeastTwo(controls: seq<bool>, i: nat, j: nat)
    requires i < j < |controls| && controls[i] && controls[j]
    ensures Passes(controls) >= 2
  {
    if j < |controls| - 1 {
      AtLeastTwo(controls[..|controls| - 1], i, j);
    } else {
      AtLeastOne(controls[..|controls| - 1], i);
    }
  }

  lemma QuorumMeans(controls: seq<bool>)
    ensures ControlQuorum(controls) <==> TwoOpen(controls)
  {
    if ControlQuorum(controls) {
      TwoPassed(controls);
    }
    if i, j :| 0 <= i < j < |controls| && controls[i] && controls[j] {
      AtLeastTwo(controls, i, j);
    }
  }

  /**
    The verification after a scan, probe by probe: the helper must be up, then open the target, then
    enough controls, and the gateway must open the target too.
   */
  method VerifyHelper(next: Option<Handle>, v: Verdict) returns (verified: bool)
    ensures verified == (next.Some? && Passed(v))
    ensures verified <==> && next.Some? && v.up && v.target && v.gateway
                          && exists i, j :: 0 <= i < j < |v.controls| && v.controls[i] && v.controls[j]
  {
    QuorumMeans(v.controls);
    verified := next.Some? && v.up;
    if verified {
      verified := v.target;
      if verified {
        verified := HelperControlQuorum(v.controls);
        if verified {
          verified := v.gateway;
        }
      }
    }
  }

  lemma {:induction false} OnePassed(controls: seq<bool>) returns (i: nat)
    requires Passes(controls) >= 1
    ensures i < |controls| && controls[i]
  {
    var n := |controls| - 1;
    if controls[n] {
      i := n;
    } else {
      i := OnePassed(controls[..n]);
    }
  }

  lemma {:induction false} TwoPassed(controls: seq<bool>)
    requires Passes(controls) >= 2
    ensures exists i, j :: 0 <= i < j < |controls| && controls[i] && controls[j]
  {
    var n := |controls| - 1;
    if controls[n] {
      var i := OnePassed(controls[..n]);
      assert controls[i] && controls[n];
    } else {
      TwoPassed(controls[..n]);
      var i, j :| 0 <= i < j < n && controls[..n][i] && controls[..n][j];
      assert controls[i] && controls[j];
    }
  }
}
