/**
 * String primitives used by the backend: Python's whitespace class, `str.strip()`,
 * `" ".join(...)`, substring search and `text[:n]`.
 */
module Text {
  import opened Wrappers

  /**
   * The characters for which Python's `str.isspace()` holds. A `str` regular
   * expression's `\s` and argument-less `str.strip()` both use this set.
   */
  predicate IsSpace(c: char) {
    ('\t' <= c <= '\r') || ('\U{1C}' <= c <= '\U{1F}') || c == ' ' || c == '\U{85}' ||
    c == '\U{A0}' || c == '\U{1680}' || ('\U{2000}' <= c <= '\U{200A}') ||
    c == '\U{2028}' || c == '\U{2029}' || c == '\U{202F}' || c == '\U{205F}' || c == '\U{3000}'
  }

  predicate AllSpace(s: string) {
    forall i :: 0 <= i < |s| ==> IsSpace(s[i])
  }

  /** The first index at or after `i` that does not hold whitespace (or `|s|`). */
  function SkipSpace(s: string, i: nat): (j: nat)
    requires i <= |s|
    ensures i <= j <= |s|
    ensures AllSpace(s[i..j])
    ensures j < |s| ==> !IsSpace(s[j])
    decreases |s| - i
  {
    if i == |s| || !IsSpace(s[i]) then i else SkipSpace(s, i + 1)
  }

  /** The start of the run of whitespace that ends at `j`. */
  function BackSkipSpace(s: string, j: nat): (k: nat)
    requires j <= |s|
    ensures k <= j
    ensures AllSpace(s[k..j])
    ensures k > 0 ==> !IsSpace(s[k - 1])
  {
    if j == 0 || !IsSpace(s[j - 1]) then j
    else
      var k := BackSkipSpace(s, j - 1);
      assert s[k..j] == s[k..j - 1] + [s[j - 1]];
      k
  }

  /** Python's `s.strip()`: `s` without its leading and trailing whitespace. */
  function Strip(s: string): (r: string)
    ensures r == [] <==> AllSpace(s)
    ensures r != [] ==> !IsSpace(r[0]) && !IsSpace(r[|r| - 1])
    ensures exists a, b :: 0 <= a <= b <= |s| && r == s[a..b] && AllSpace(s[..a]) && AllSpace(s[b..])
  {
    var a := SkipSpace(s, 0);
    if a == |s| then
      assert s[..a] == s[0..a] && s[a..] == [];
      []
    else
      var b := BackSkipSpace(s, |s|);
      assert !IsSpace(s[a]) && s[0..a] == s[..a];
      assert s[b..|s|] == s[b..];
      s[a..b]
  }

  /** Python's `sep.join(parts)`. */
  function Join(parts: seq<string>, sep: string): string
  {
    if |parts| == 0 then ""
    else if |parts| == 1 then parts[0]
    else parts[0] + sep + Join(parts[1..], sep)
  }

  lemma AllSpaceConcat(a: string, b: string)
    ensures AllSpace(a + b) <==> AllSpace(a) && AllSpace(b)
  {
    if AllSpace(a + b) {
      forall i | 0 <= i < |b| ensures IsSpace(b[i]) { assert b[i] == (a + b)[|a| + i]; }
      forall i | 0 <= i < |a| ensures IsSpace(a[i]) { assert a[i] == (a + b)[i]; }
    }
  }

  /**
   * A space-join is whitespace only exactly when every part is (the separator
   * being a space itself).
   */
  lemma {:induction false} JoinAllSpace(parts: seq<string>)
    ensures AllSpace(Join(parts, " ")) <==> forall i :: 0 <= i < |parts| ==> AllSpace(parts[i])
    decreases |parts|
  {
    if |parts| > 1 {
      JoinAllSpace(parts[1..]);
      AllSpaceConcat(parts[0] + " ", Join(parts[1..], " "));
      AllSpaceConcat(parts[0], " ");
      assert IsSpace(" "[0]);
      if forall i :: 1 <= i < |parts| ==> AllSpace(parts[i]) {
        forall i | 0 <= i < |parts| - 1 ensures AllSpace(parts[1..][i]) { assert parts[1..][i] == parts[i + 1]; }
      }
      if forall i :: 0 <= i < |parts[1..]| ==> AllSpace(parts[1..][i]) {
        forall i | 1 <= i < |parts| ensures AllSpace(parts[i]) { assert parts[i] == parts[1..][i - 1]; }
      }
    }
  }

  predicate OccursAt(s: string, pat: string, k: nat) {
    k + |pat| <= |s| && s[k..k + |pat|] == pat
  }

  /** The first index at or after `from` where `pat` occurs in `s`. */
  function FindFrom(s: string, pat: string, from: nat): (r: Option<nat>)
    ensures r.Some? ==> from <= r.value && OccursAt(s, pat, r.value)
    ensures r.Some? ==> forall k :: from <= k < r.value ==> !OccursAt(s, pat, k)
    ensures r.None? ==> forall k :: from <= k ==> !OccursAt(s, pat, k)
    decreases |s| - from
  {
    if from + |pat| > |s| then None
    else if OccursAt(s, pat, from) then Some(from)
    else FindFrom(s, pat, from + 1)
  }

  /** Python's `sub in s`. */
  predicate Contains(s: string, sub: string) {
    exists k :: 0 <= k <= |s| - |sub| && OccursAt(s, sub, k)
  }

  /** Python's `s[:n]`. */
  function Take(s: string, n: nat): (r: string)
    ensures |r| <= n && r <= s
    ensures |s| >= n ==> |r| == n
    ensures |s| <= n ==> r == s
  {
    if |s| <= n then s else s[..n]
  }
}
