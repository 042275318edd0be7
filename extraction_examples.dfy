/**
 * Worked instances of the three candidates of `extract_json_from_response`.
 * Each text is passed as a parameter equal to a constant so that the verifier
 * reasons about its characters rather than unfolding the searches on a literal.
 */
module ExtractionExamples {
  import opened Wrappers
  import opened Text
  import opened JsonValue
  import opened Extraction

  const Tagged: string := "a```json\n{}\n```"
  const Unclosed: string := "```json {}"

  lemma TaggedBlockMatch(s: string)
    requires s == Tagged
    ensures IsFenceMatch(s, FenceMatch(1, 9, 11, 12))
  {
    assert OccursAt(s, Fence, 1) && OccursAt(s, Fence, 12);
    assert s[0..3][0] != Fence[0];
    assert OccursAt(s, JsonTag, 4);
    assert s[8..9] == "\n";
    assert s[11..12] == "\n";
    forall k | 9 <= k < 12 ensures !OccursAt(s, Fence, k) {
      assert s[k..k + 3][0] == s[k];
    }
  }

  lemma TaggedBlockSlice(s: string)
    requires s == Tagged
    ensures |s| == 15 && s[9..11] == "{}"
  {
  }

  /** After some prose, a tagged block gives its body without the tag or the surrounding newlines. */
  lemma TaggedBlockBody(s: string)
    requires s == Tagged
    ensures FencedBody(s) == Some("{}")
  {
    TaggedBlockMatch(s);
    TaggedBlockSlice(s);
    FenceSpanOfMatch(s, FenceMatch(1, 9, 11, 12));
  }

  /**
   * When the whole reply does not parse but the block body does, the body's
   * value is returned.
   */
  lemma TaggedBlockExtracted(s: string, parse: string -> Option<Json>, v: Json)
    requires s == Tagged && parse(s).None? && parse("{}") == Some(v)
    ensures ExtractJson(s, parse) == Ok(v)
  {
    TaggedBlockBody(s);
    FencedBodyTriedSecond(s, parse);
  }

  /** An opening fence without a closing one captures nothing; the braces still do. */
  lemma UnclosedBlock(s: string)
    requires s == Unclosed
    ensures FencedBody(s).None?
    ensures BracedSpan(s) == Some("{}")
  {
    forall k | 0 < k ensures !OccursAt(s, Fence, k) {
      if k + 3 > |s| {
      } else if k <= 3 {
        assert s[k..k + 3][3 - k] == 'j';
      } else {
        assert s[k..k + 3][0] == s[k];
      }
    }
    assert !HasTwoFences(s);
    assert s[8] == '{' && s[9] == '}';
    assert forall k :: 0 <= k < 8 ==> s[k] != '{';
    assert s[8..10] == "{}";
  }
}
