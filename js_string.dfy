/**
 The two JavaScript string operations the dashboard relies on, on strings
 modelled as sequences of Unicode scalar values (`seq<char>`):
 `String.prototype.startsWith` and `String.prototype.replace` called with a
 string pattern, which replaces only the first occurrence.
 */
module JsString {

  datatype Option<T> = None | Some(value: T)

  /** `s.startsWith(prefix)`: the empty prefix matches every string. */
  predicate StartsWith(s: string, prefix: string) {
    |prefix| <= |s| && s[..|prefix|] == prefix
  }

  /** `pat` occurs in `s` starting at index `i`. */
  predicate OccursAt(s: string, pat: string, i: nat) {
    i + |pat| <= |s| && s[i..i + |pat|] == pat
  }

  /** `s.indexOf(pat, from)`: the first occurrence of `pat` at or after `from`. */
  function IndexOfFrom(s: string, pat: string, from: nat): (r: Option<nat>)
    requires from <= |s|
    ensures r.Some? ==> from <= r.value && OccursAt(s, pat, r.value)
    ensures r.Some? ==> forall j: nat :: from <= j < r.value ==> !OccursAt(s, pat, j)
    ensures r.None? ==> forall j: nat :: from <= j ==> !OccursAt(s, pat, j)
    decreases |s| - from
  {
    if OccursAt(s, pat, from) then Some(from)
    else if from == |s| then None
    else IndexOfFrom(s, pat, from + 1)
  }

  /** `s.indexOf(pat)`. */
  function IndexOf(s: string, pat: string): (r: Option<nat>)
    ensures r.Some? ==> OccursAt(s, pat, r.value)
    ensures r.Some? ==> forall j: nat :: j < r.value ==> !OccursAt(s, pat, j)
    ensures r.None? <==> forall j: nat :: !OccursAt(s, pat, j)
  {
    IndexOfFrom(s, pat, 0)
  }

  /**
   `s.replace(pat, rep)` with a string `pat`: the first occurrence is
   replaced and the rest of `s` is kept. A `rep` without `$` is inserted
   literally; the badge's replacement is empty, so `$` patterns do not arise.
   */
  function ReplaceFirst(s: string, pat: string, rep: string): (r: string)
    ensures IndexOf(s, pat).None? ==> r == s
    ensures IndexOf(s, pat).Some? ==> |r| == |s| - |pat| + |rep|
  {
    match IndexOf(s, pat)
    case None => s
    case Some(i) => s[..i] + rep + s[i + |pat|..]
  }

  /** Starting with a string is an occurrence at index 0. */
  lemma StartsWithIsOccursAtZero(s: string, prefix: string)
    ensures StartsWith(s, prefix) <==> OccursAt(s, prefix, 0)
  {
  }

  /** `replace` splices `rep` in at the first occurrence and nowhere else. */
  lemma ReplaceFirstAt(s: string, pat: string, rep: string, i: nat)
    requires OccursAt(s, pat, i)
    requires forall j: nat :: j < i ==> !OccursAt(s, pat, j)
    ensures ReplaceFirst(s, pat, rep) == s[..i] + rep + s[i + |pat|..]
  {
  }

  /** When `s` starts with `pat`, replacing it by `rep` swaps that prefix. */
  lemma ReplaceFirstPrefix(s: string, pat: string, rep: string)
    requires StartsWith(s, pat)
    ensures ReplaceFirst(s, pat, rep) == rep + s[|pat|..]
  {
    StartsWithIsOccursAtZero(s, pat);
    ReplaceFirstAt(s, pat, rep, 0);
    assert s[..0] == [];
  }
}
