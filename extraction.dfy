/**
 * `extract_json_from_response`: recovering one JSON value from free-form model
 * output. Three candidate substrings are tried in order (the whole text, the body
 * of the first fenced code block, the span from the first `{` to the last `}`);
 * the first that parses wins.
 */
module Extraction {
  import opened Wrappers
  import opened Text
  import opened JsonValue

  const Fence: string := "```"
  const JsonTag: string := "json"
  const ErrorPrefix: string := "Could not extract valid JSON from response: "
  const PreviewLength: nat := 500

  /**
   * Positions of a match of the fenced-block pattern: the opening fence, the
   * captured body `[bodyStart, bodyEnd)`, and the closing fence.
   */
  datatype FenceMatch = FenceMatch(open: nat, bodyStart: nat, bodyEnd: nat, close: nat)

  ghost predicate HasTwoFences(s: string) {
    exists p: nat, q: nat :: p + 3 <= q && OccursAt(s, Fence, p) && OccursAt(s, Fence, q)
  }

  /**
   * What a leftmost match of the pattern ``` (?:json)? \s* ([\s\S]*?) \s* ``` is:
   * it starts at the first fence of the text; the optional tag is taken whenever
   * present and then all whitespace; the lazy body ends at the first closing fence
   * after that, leaving the whitespace before it to the trailing `\s*`.
   */
  ghost predicate IsFenceMatch(s: string, m: FenceMatch) {
    m.open + 3 <= m.bodyStart <= m.bodyEnd <= m.close &&
    OccursAt(s, Fence, m.open) && OccursAt(s, Fence, m.close) &&
    (forall k :: 0 <= k < m.open ==> !OccursAt(s, Fence, k)) &&
    (if OccursAt(s, JsonTag, m.open + 3)
     then m.open + 7 <= m.bodyStart && AllSpace(s[m.open + 7..m.bodyStart])
     else AllSpace(s[m.open + 3..m.bodyStart])) &&
    !IsSpace(s[m.bodyStart]) &&
    (forall k :: m.bodyStart <= k < m.close ==> !OccursAt(s, Fence, k)) &&
    AllSpace(s[m.bodyEnd..m.close]) &&
    (m.bodyEnd > m.bodyStart ==> !IsSpace(s[m.bodyEnd - 1]))
  }

  /** No backtick lies between an opening fence and the first non-space after its tag. */
  lemma NoFenceInOpening(s: string, p: nat, a: nat, b: nat, k: nat)
    requires OccursAt(s, Fence, p)
    requires a == (if OccursAt(s, JsonTag, p + 3) then p + 7 else p + 3)
    requires a <= b <= |s| && AllSpace(s[a..b])
    requires p + 3 <= k < b
    ensures !OccursAt(s, Fence, k)
  {
    assert s[k] != '`' by {
      if k < a {
        assert OccursAt(s, JsonTag, p + 3);
        assert s[k] == JsonTag[k - p - 3];
      } else {
        assert s[k] == s[a..b][k - a];
        assert IsSpace(s[a..b][k - a]);
      }
    }
    if k + 3 <= |s| {
      assert s[k..k + 3][0] == s[k];
    }
  }

  /** With the first fence at `p` and no fence at or after `b`, no two fences exist. */
  lemma NoSecondFence(s: string, p: nat, a: nat, b: nat)
    requires OccursAt(s, Fence, p) && forall k :: 0 <= k < p ==> !OccursAt(s, Fence, k)
    requires a == (if OccursAt(s, JsonTag, p + 3) then p + 7 else p + 3)
    requires a <= b <= |s| && AllSpace(s[a..b])
    requires forall k :: b <= k ==> !OccursAt(s, Fence, k)
    ensures !HasTwoFences(s)
  {
    if HasTwoFences(s) {
      var p': nat, q: nat :| p' + 3 <= q && OccursAt(s, Fence, p') && OccursAt(s, Fence, q);
      assert p <= p';
      if q < b {
        NoFenceInOpening(s, p, a, b, q);
      }
    }
  }

  /** Where the trailing `\s*` before a closing fence at `c` begins, given the body starts at `b`. */
  lemma BodyEnd(s: string, b: nat, c: nat, e: nat)
    requires b <= c <= |s|
    requires e == (var k := BackSkipSpace(s, c); if k < b then b else k)
    ensures b <= e <= c && AllSpace(s[e..c]) && (e > b ==> !IsSpace(s[e - 1]))
  {
    var k := BackSkipSpace(s, c);
    assert AllSpace(s[e..c]) by {
      forall i | 0 <= i < c - e ensures IsSpace(s[e..c][i]) {
        assert s[e..c][i] == s[k..c][e - k + i];
      }
    }
  }

  lemma FoundFences(s: string, p: nat, a: nat, b: nat, c: nat, e: nat)
    requires OccursAt(s, Fence, p) && forall k :: 0 <= k < p ==> !OccursAt(s, Fence, k)
    requires a == (if OccursAt(s, JsonTag, p + 3) then p + 7 else p + 3)
    requires a <= b <= |s| && AllSpace(s[a..b]) && (b < |s| ==> !IsSpace(s[b]))
    requires b <= c && OccursAt(s, Fence, c) && forall k :: b <= k < c ==> !OccursAt(s, Fence, k)
    requires b <= e <= c && AllSpace(s[e..c]) && (e > b ==> !IsSpace(s[e - 1]))
    ensures IsFenceMatch(s, FenceMatch(p, b, e, c))
  {
    assert s[c] == s[c..c + 3][0];
  }

  /** The fenced-block match of `s`, if there is one. */
  function FenceSpan(s: string): (r: Option<FenceMatch>)
    ensures r.Some? ==> IsFenceMatch(s, r.value)
    ensures r.None? <==> !HasTwoFences(s)
  {
    match FindFrom(s, Fence, 0)
    case None => None
    case Some(p) =>
      var a := if OccursAt(s, JsonTag, p + 3) then p + 7 else p + 3;
      var b := SkipSpace(s, a);
      match FindFrom(s, Fence, b)
      case None =>
        NoSecondFence(s, p, a, b);
        None
      case Some(c) =>
        var k := BackSkipSpace(s, c);
        var e := if k < b then b else k;
        BodyEnd(s, b, c, e);
        FoundFences(s, p, a, b, c, e);
        assert p + 3 <= c;
        Some(FenceMatch(p, b, e, c))
  }

  /** A run of whitespace from `a` ends at one place: the first non-space. */
  lemma SpaceRunEnd(s: string, a: nat, b: nat, b': nat)
    requires a <= b < |s| && AllSpace(s[a..b]) && !IsSpace(s[b])
    requires a <= b' < |s| && AllSpace(s[a..b']) && !IsSpace(s[b'])
    ensures b == b'
  {
  }

  /** A run of whitespace up to `c`, not reaching past `lo`, starts at one place. */
  lemma SpaceRunStart(s: string, lo: nat, e: nat, e': nat, c: nat)
    requires lo <= e <= c <= |s| && AllSpace(s[e..c]) && (e > lo ==> !IsSpace(s[e - 1]))
    requires lo <= e' <= c && AllSpace(s[e'..c]) && (e' > lo ==> !IsSpace(s[e' - 1]))
    ensures e == e'
  {
  }

  /** Two fences at or after `b` with no fence between `b` and either are the same fence. */
  lemma FirstFenceFrom(s: string, b: nat, c: nat, c': nat)
    requires b <= c && OccursAt(s, Fence, c) && forall k :: b <= k < c ==> !OccursAt(s, Fence, k)
    requires b <= c' && OccursAt(s, Fence, c') && forall k :: b <= k < c' ==> !OccursAt(s, Fence, k)
    ensures c == c'
  {
  }

  lemma SameOpen(s: string, m: FenceMatch, m': FenceMatch)
    requires IsFenceMatch(s, m) && IsFenceMatch(s, m')
    ensures m.open == m'.open
  {
    FirstFenceFrom(s, 0, m.open, m'.open);
  }

  lemma SameBodyStart(s: string, m: FenceMatch, m': FenceMatch)
    requires IsFenceMatch(s, m) && IsFenceMatch(s, m') && m.open == m'.open
    ensures m.bodyStart == m'.bodyStart
  {
    var a := if OccursAt(s, JsonTag, m.open + 3) then m.open + 7 else m.open + 3;
    SpaceRunEnd(s, a, m.bodyStart, m'.bodyStart);
  }

  lemma SameClose(s: string, m: FenceMatch, m': FenceMatch)
    requires IsFenceMatch(s, m) && IsFenceMatch(s, m') && m.bodyStart == m'.bodyStart
    ensures m.close == m'.close && m.bodyEnd == m'.bodyEnd
  {
    FirstFenceFrom(s, m.bodyStart, m.close, m'.close);
    SpaceRunStart(s, m.bodyStart, m.bodyEnd, m'.bodyEnd, m.close);
  }

  /** The conditions on a fenced-block match leave exactly one match. */
  lemma FenceMatchUnique(s: string, m: FenceMatch, m': FenceMatch)
    requires IsFenceMatch(s, m) && IsFenceMatch(s, m')
    ensures m == m'
  {
    SameOpen(s, m, m');
    SameBodyStart(s, m, m');
    SameClose(s, m, m');
  }

  /** The text captured by the fenced-block pattern. */
  function FencedBody(s: string): (r: Option<string>)
    ensures r.Some? <==> HasTwoFences(s)
    ensures r.Some? ==> exists m :: IsFenceMatch(s, m) && r.value == s[m.bodyStart..m.bodyEnd]
  {
    match FenceSpan(s)
    case None => None
    case Some(m) => Some(s[m.bodyStart..m.bodyEnd])
  }

  function FirstIndexOf(s: string, c: char, from: nat): (r: Option<nat>)
    ensures r.Some? ==> from <= r.value < |s| && s[r.value] == c
    ensures r.Some? ==> forall k :: from <= k < r.value ==> s[k] != c
    ensures r.None? ==> forall k :: from <= k < |s| ==> s[k] != c
    decreases |s| - from
  {
    if from >= |s| then None
    else if s[from] == c then Some(from)
    else FirstIndexOf(s, c, from + 1)
  }

  function LastIndexOf(s: string, c: char, upto: nat): (r: Option<nat>)
    requires upto <= |s|
    ensures r.Some? ==> r.value < upto && s[r.value] == c
    ensures r.Some? ==> forall k :: r.value < k < upto ==> s[k] != c
    ensures r.None? ==> forall k :: 0 <= k < upto ==> s[k] != c
  {
    if upto == 0 then None
    else if s[upto - 1] == c then Some(upto - 1)
    else LastIndexOf(s, c, upto - 1)
  }

  /**
   * The match of the greedy pattern `\{[\s\S]*\}`: from the first `{` to the last
   * `}` of the text, if that `}` comes after the `{`.
   */
  function BraceSpan(s: string): (r: Option<(nat, nat)>)
    ensures r.None? <==> !exists i, j :: 0 <= i < j < |s| && s[i] == '{' && s[j] == '}'
    ensures r.Some? ==> r.value.0 < r.value.1 < |s| && s[r.value.0] == '{' && s[r.value.1] == '}'
    ensures r.Some? ==> forall k :: 0 <= k < r.value.0 ==> s[k] != '{'
    ensures r.Some? ==> forall k :: r.value.1 < k < |s| ==> s[k] != '}'
  {
    match (FirstIndexOf(s, '{', 0), LastIndexOf(s, '}', |s|))
    case (Some(i), Some(j)) => if i < j then Some((i, j)) else None
    case _ => None
  }

  /** The text captured by the brace pattern. */
  function BracedSpan(s: string): (r: Option<string>)
    ensures r.Some? <==> exists i, j :: 0 <= i < j < |s| && s[i] == '{' && s[j] == '}'
    ensures r.Some? ==> |r.value| >= 2 && r.value[0] == '{' && r.value[|r.value| - 1] == '}'
  {
    match BraceSpan(s)
    case None => None
    case Some((i, j)) => Some(s[i..j + 1])
  }

  /** The candidate substrings in the order they are tried. */
  function Candidates(text: string): (r: seq<string>)
    ensures 1 <= |r| <= 3 && r[0] == text
    ensures |r| == 1 + (if FencedBody(text).Some? then 1 else 0) + (if BracedSpan(text).Some? then 1 else 0)
    ensures FencedBody(text).Some? ==> r[1] == FencedBody(text).value
    ensures BracedSpan(text).Some? ==> r[|r| - 1] == BracedSpan(text).value
  {
    [text]
    + (match FencedBody(text) case Some(b) => [b] case None => [])
    + (match BracedSpan(text) case Some(b) => [b] case None => [])
  }

  /** The message of the `ValueError` raised when no candidate parses. */
  function ExtractionError(text: string): (r: string)
    ensures |r| == |ErrorPrefix| + (if |text| < PreviewLength then |text| else PreviewLength) + 3
    ensures r[..|ErrorPrefix|] == ErrorPrefix && r[|r| - 3..] == "..."
  {
    ErrorPrefix + Take(text, PreviewLength) + "..."
  }

  /** The first candidate that parses, with its position, if any does. */
  function FirstParse(cs: seq<string>, parse: string -> Option<Json>): (r: Option<(nat, Json)>)
    ensures r.None? <==> forall i :: 0 <= i < |cs| ==> parse(cs[i]).None?
    ensures r.Some? ==> r.value.0 < |cs| && parse(cs[r.value.0]) == Some(r.value.1)
    ensures r.Some? ==> forall j :: 0 <= j < r.value.0 ==> parse(cs[j]).None?
  {
    if |cs| == 0 then None
    else if parse(cs[0]).Some? then Some((0, parse(cs[0]).value))
    else
      match FirstParse(cs[1..], parse)
      case None => None
      case Some((i, v)) => Some((i + 1, v))
  }

  /**
   * `extract_json_from_response`, with `json.loads` as the parameter `parse`
   * (`None` standing for a `JSONDecodeError`): the parse of the first candidate
   * that parses, or the `ValueError` message.
   */
  function ExtractJson(text: string, parse: string -> Option<Json>): (r: Result<Json, string>)
    ensures parse(text).Some? ==> r == Ok(parse(text).value)
    ensures r.Ok? <==> exists i :: 0 <= i < |Candidates(text)| && parse(Candidates(text)[i]).Some?
    ensures r.Ok? ==> exists i :: 0 <= i < |Candidates(text)| && parse(Candidates(text)[i]) == Some(r.value) &&
                                  forall j :: 0 <= j < i ==> parse(Candidates(text)[j]).None?
    ensures r.Err? ==> r.error == ExtractionError(text)
  {
    var cs := Candidates(text);
    assert cs[0] == text;
    match FirstParse(cs, parse)
    case Some((_, v)) => Ok(v)
    case None => Err(ExtractionError(text))
  }

  /** When the whole text does not parse, the fenced body is tried next. */
  lemma FencedBodyTriedSecond(text: string, parse: string -> Option<Json>)
    requires parse(text).None? && FencedBody(text).Some? && parse(FencedBody(text).value).Some?
    ensures ExtractJson(text, parse) == Ok(parse(FencedBody(text).value).value)
  {
    assert Candidates(text)[1] == FencedBody(text).value;
  }

  /** When neither the text nor a fenced body parses, the outcome rests on the braced span alone. */
  lemma BracedSpanTriedLast(text: string, parse: string -> Option<Json>)
    requires parse(text).None?
    requires FencedBody(text).None? || parse(FencedBody(text).value).None?
    ensures ExtractJson(text, parse) ==
      if BracedSpan(text).Some? && parse(BracedSpan(text).value).Some?
      then Ok(parse(BracedSpan(text).value).value)
      else Err(ExtractionError(text))
  {
    var cs := Candidates(text);
    assert parse(cs[0]).None?;
    if FencedBody(text).Some? {
      assert parse(cs[1]).None?;
    }
    if BracedSpan(text).Some? {
      assert cs[|cs| - 1] == BracedSpan(text).value;
    }
  }

  /** The fenced body is a contiguous piece of the text. */
  lemma FencedBodyIsInfix(text: string)
    ensures FencedBody(text).Some? ==> exists a, b :: 0 <= a <= b <= |text| && FencedBody(text).value == text[a..b]
  {
    if FencedBody(text).Some? {
      var m := FenceSpan(text).value;
      assert FencedBody(text).value == text[m.bodyStart..m.bodyEnd];
    }
  }

  /** The braced span is a contiguous piece of the text that opens with `{` and closes with `}`. */
  lemma BracedSpanIsInfix(text: string)
    ensures BracedSpan(text).Some? ==> exists a, b :: 0 <= a <= b <= |text| && BracedSpan(text).value == text[a..b]
    ensures BracedSpan(text).Some? ==> var c := BracedSpan(text).value; |c| >= 2 && c[0] == '{' && c[|c| - 1] == '}'
  {
    if BracedSpan(text).Some? {
      var (i, j) := BraceSpan(text).value;
      assert BracedSpan(text).value == text[i..j + 1];
    }
  }

  /** A text with a match of the fenced-block pattern yields exactly that match and its body. */
  lemma FenceSpanOfMatch(s: string, m: FenceMatch)
    requires IsFenceMatch(s, m)
    ensures FenceSpan(s) == Some(m)
    ensures FencedBody(s) == Some(s[m.bodyStart..m.bodyEnd])
  {
    assert HasTwoFences(s) by {
      assert m.open + 3 <= m.close && OccursAt(s, Fence, m.open) && OccursAt(s, Fence, m.close);
    }
    FenceMatchUnique(s, m, FenceSpan(s).value);
  }

  /** The error message keeps at most the first 500 characters of the input. */
  lemma ErrorPreviewBounded(text: string)
    ensures |ExtractionError(text)| <= |ErrorPrefix| + PreviewLength + 3
    ensures ExtractionError(text)[|ErrorPrefix|..|ErrorPrefix| + |Take(text, PreviewLength)|] <= text
  {
  }
}
