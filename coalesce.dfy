/**
 * The `coalesce*` helpers of the configuration loaders: early-return
 * searches over their arguments. Each is a loop method proved against a
 * recursive definition, whose meaning the lemmas state. The agent's
 * `coalesceString` and `coalesceInt` are the same code as the server's.
 */
module Coalesce {
  import opened Int64

  /** The first non-empty string, or "". */
  function FirstNonEmpty(vs: seq<string>): string {
    if vs == [] then "" else if vs[0] != "" then vs[0] else FirstNonEmpty(vs[1..])
  }

  /** The first strictly positive value, or 0. */
  function FirstPositive(vs: seq<int64>): int64 {
    if vs == [] then 0 else if vs[0] > 0 then vs[0] else FirstPositive(vs[1..])
  }

  /** The first argument, or false. */
  function FirstBool(vs: seq<bool>): bool {
    if vs == [] then false else vs[0]
  }

  /** The result is one of the arguments, or 0. */
  lemma {:induction false} FirstPositiveIn(vs: seq<int64>)
    ensures FirstPositive(vs) == 0 || FirstPositive(vs) in vs
  {
    if vs != [] && vs[0] <= 0 {
      FirstPositiveIn(vs[1..]);
    }
  }

  /** The result is the argument at the first position holding a non-empty string. */
  lemma {:induction false} FirstNonEmptyAt(vs: seq<string>, i: nat)
    requires i < |vs| && vs[i] != ""
    requires forall j :: 0 <= j < i ==> vs[j] == ""
    ensures FirstNonEmpty(vs) == vs[i]
  {
    if i > 0 {
      FirstNonEmptyAt(vs[1..], i - 1);
    }
  }

  /** The result is "" exactly when every argument is. */
  lemma {:induction false} FirstNonEmptyEmpty(vs: seq<string>)
    ensures FirstNonEmpty(vs) == "" <==> forall j :: 0 <= j < |vs| ==> vs[j] == ""
  {
    if vs != [] {
      FirstNonEmptyEmpty(vs[1..]);
      assert forall j :: 1 <= j < |vs| ==> vs[j] == vs[1..][j - 1];
    }
  }

  /** The result is the argument at the first position holding a positive value; zero and negatives are skipped. */
  lemma {:induction false} FirstPositiveAt(vs: seq<int64>, i: nat)
    requires i < |vs| && vs[i] > 0
    requires forall j :: 0 <= j < i ==> vs[j] <= 0
    ensures FirstPositive(vs) == vs[i]
  {
    if i > 0 {
      FirstPositiveAt(vs[1..], i - 1);
    }
  }

  /** The result is 0 exactly when no argument is positive, and is never negative. */
  lemma {:induction false} FirstPositiveNone(vs: seq<int64>)
    ensures FirstPositive(vs) >= 0
    ensures FirstPositive(vs) == 0 <==> forall j :: 0 <= j < |vs| ==> vs[j] <= 0
  {
    if vs != [] {
      FirstPositiveNone(vs[1..]);
      assert forall j :: 1 <= j < |vs| ==> vs[j] == vs[1..][j - 1];
    }
  }

  /** A positive last argument, a default, makes the result positive. */
  lemma {:induction false} FirstPositiveWithDefault(vs: seq<int64>, d: int64)
    requires d > 0
    ensures FirstPositive(vs + [d]) > 0
  {
    if vs == [] {
      assert vs + [d] == [d];
    } else {
      assert (vs + [d])[1..] == vs[1..] + [d];
      FirstPositiveWithDefault(vs[1..], d);
    }
  }

  /** `coalesceString`. */
  method CoalesceString(values: seq<string>) returns (r: string)
    ensures r == FirstNonEmpty(values)
  {
    var i := 0;
    while i < |values|
      invariant i <= |values|
      invariant FirstNonEmpty(values) == FirstNonEmpty(values[i..])
    {
      assert values[i..][1..] == values[i + 1..];
      if values[i] != "" {
        return values[i];
      }
      i := i + 1;
    }
    return "";
  }

  /** `coalesceInt`. */
  method CoalesceInt(values: seq<int64>) returns (r: int64)
    ensures r == FirstPositive(values)
  {
    var i := 0;
    while i < |values|
      invariant i <= |values|
      invariant FirstPositive(values) == FirstPositive(values[i..])
    {
      assert values[i..][1..] == values[i + 1..];
      if values[i] > 0 {
        return values[i];
      }
      i := i + 1;
    }
    return 0;
  }

  /** `coalesceBoolPtr`: its loop returns in the first iteration, written here as a test, so the result is the first argument, or false for none. */
  method CoalesceBool(values: seq<bool>) returns (r: bool)
    ensures r == FirstBool(values)
    ensures values != [] ==> r == values[0]
    ensures values == [] ==> !r
  {
    if values != [] {
      return values[0];
    }
    return false;
  }
}
