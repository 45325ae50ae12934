/**
 * The fragments of JavaScript string semantics the resolvers rely on:
 * truthiness of an optional string, the `a || b || ...` operator chain, and
 * `String.prototype.replace` with a string (not a regular expression) pattern.
 */
module JsSemantics {
  import opened Wrappers

  /** A string-typed value is truthy when it is present and not `''`. */
  predicate Truthy(v: Option<string>) {
    v.Some? && v.value != ""
  }

  /** Every operand in `vs` is falsy. */
  predicate AllFalsy(vs: seq<Option<string>>) {
    forall i :: 0 <= i < |vs| ==> !Truthy(vs[i])
  }

  /**
   * The value of `vs[0] || vs[1] || ... || vs[n-1]`: the first truthy operand,
   * or the last operand when none is truthy (which may be `''` or `undefined`).
   * `||` associates to the left, but every grouping yields the same value.
   */
  function FirstTruthy(vs: seq<Option<string>>): (r: Option<string>)
    requires vs != []
    ensures r in vs
    ensures Truthy(r) <==> !AllFalsy(vs)
    ensures AllFalsy(vs) ==> r == vs[|vs| - 1]
    ensures forall k :: 0 <= k < |vs| && Truthy(vs[k]) && AllFalsy(vs[..k]) ==> r == vs[k]
  {
    if |vs| == 1 || Truthy(vs[0]) then vs[0]
    else
      var r := FirstTruthy(vs[1..]);
      assert forall k :: 1 <= k < |vs| ==> vs[1..][..k - 1] == vs[1..k];
      assert forall k :: 1 <= k < |vs| && AllFalsy(vs[..k]) ==> AllFalsy(vs[1..][..k - 1]);
      r
  }

  /** Operands known to be falsy can be dropped from the front of a chain. */
  lemma {:induction false} FirstTruthyDropFalsy(vs: seq<Option<string>>, n: nat)
    requires n < |vs|
    requires AllFalsy(vs[..n])
    ensures FirstTruthy(vs) == FirstTruthy(vs[n..])
  {
    if n > 0 {
      assert !Truthy(vs[0]);
      assert vs[1..][n - 1..] == vs[n..];
      assert vs[1..][..n - 1] == vs[1..n];
      FirstTruthyDropFalsy(vs[1..], n - 1);
    }
  }

  /** `pat` occurs in `s` starting at index `i`. */
  predicate OccursAt(s: string, pat: string, i: nat) {
    i + |pat| <= |s| && s[i..i + |pat|] == pat
  }

  /** An occurrence in `s` after its first character is an occurrence in `s[1..]`, one index earlier. */
  lemma OccursAtShift(s: string, pat: string)
    requires s != ""
    ensures forall j: nat :: 1 <= j ==> (OccursAt(s, pat, j) <==> OccursAt(s[1..], pat, j - 1))
  {
  }

  /** `s.indexOf(pat)`: the first index at which `pat` occurs, `None` for -1. */
  function IndexOf(s: string, pat: string): (r: Option<nat>)
    ensures r.Some? ==> OccursAt(s, pat, r.value)
    ensures r.Some? ==> forall j :: 0 <= j < r.value ==> !OccursAt(s, pat, j)
    ensures r.None? ==> forall j :: 0 <= j <= |s| ==> !OccursAt(s, pat, j)
    decreases |s|
  {
    if OccursAt(s, pat, 0) then Some(0)
    else if s == [] then None
    else
      var rest := IndexOf(s[1..], pat);
      OccursAtShift(s, pat);
      match rest
      case None => None
      case Some(i) => Some(i + 1)
  }

  /**
   * `s.replace(pat, rep)` for a string `pat` and a replacement without
   * `$` patterns: only the first occurrence of `pat` is replaced by `rep`,
   * inserted literally; without an occurrence `s` is returned unchanged.
   * JavaScript's `$&`, `$$`, `` $` `` and `$'` substitutions are not modelled.
   */
  function ReplaceFirst(s: string, pat: string, rep: string): (r: string)
    ensures IndexOf(s, pat).None? ==> r == s
    ensures IndexOf(s, pat).Some? ==>
              var i := IndexOf(s, pat).value;
              r == s[..i] + rep + s[i + |pat|..]
    decreases |s|
  {
    if OccursAt(s, pat, 0) then rep + s[|pat|..]
    else if s == [] then s
    else
      var r := [s[0]] + ReplaceFirst(s[1..], pat, rep);
      assert IndexOf(s, pat).Some? ==> IndexOf(s[1..], pat).Some? && IndexOf(s, pat).value == IndexOf(s[1..], pat).value + 1;
      assert IndexOf(s, pat).Some? ==>
               var i := IndexOf(s[1..], pat).value;
               [s[0]] + s[1..][..i] == s[..i + 1] && s[1..][i + |pat|..] == s[i + 1 + |pat|..];
      r
  }

  /** If `s` is `a + pat + b` and `pat` does not start inside `a`, the occurrence after `a` is replaced. */
  lemma ReplaceFirstAt(a: string, pat: string, b: string, rep: string)
    requires forall j :: 0 <= j < |a| ==> !OccursAt(a + pat + b, pat, j)
    ensures ReplaceFirst(a + pat + b, pat, rep) == a + rep + b
  {
    var s := a + pat + b;
    assert s[|a|..|a| + |pat|] == pat;
    assert OccursAt(s, pat, |a|);
    assert IndexOf(s, pat) == Some(|a|);
    assert s[..|a|] == a && s[|a| + |pat|..] == b;
  }

  /** When the pattern's first character does not appear in `a`, the occurrence right after `a` is the one replaced. */
  lemma ReplaceFirstAfterPrefix(a: string, pat: string, b: string, rep: string)
    requires pat != ""
    requires forall j :: 0 <= j < |a| ==> a[j] != pat[0]
    ensures ReplaceFirst(a + pat + b, pat, rep) == a + rep + b
  {
    var s := a + pat + b;
    forall j | 0 <= j < |a| ensures !OccursAt(s, pat, j) {
      assert s[j] == a[j];
      assert j + |pat| <= |s| ==> s[j..j + |pat|][0] == s[j];
    }
    ReplaceFirstAt(a, pat, b, rep);
  }

  /** A replacement that differs from the pattern changes `s` exactly when the pattern occurs. */
  lemma ReplaceFirstChangesIffOccurs(s: string, pat: string, rep: string)
    requires rep != pat
    ensures ReplaceFirst(s, pat, rep) == s <==> IndexOf(s, pat).None?
  {
  }

  /** Replacing with a non-empty string never yields the empty string. */
  lemma ReplaceFirstNonEmpty(s: string, pat: string, rep: string)
    requires s != "" && rep != ""
    ensures ReplaceFirst(s, pat, rep) != ""
  {
  }
}
