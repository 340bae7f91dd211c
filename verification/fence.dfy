/**
 * The markdown code-block search of `_clean_cypher_response` in
 * codebase_rag/services/llm.py: the pattern
 * ```` ```(?:cypher)?\s*\n?(.*?)\n?``` ```` searched with `re.DOTALL` and
 * `re.IGNORECASE`, written out as a search for fence markers.
 *
 * A match begins at the first fence marker exactly when a second marker
 * starts at least three characters later (the lazy group can always stretch
 * to it, and no later marker can do better). The optional tag and the
 * whitespace run consume only letters and blanks, never a backtick, so the
 * closing marker is the first one after the opening marker, and the group is
 * the text between the two markers with the tag, the leading whitespace and
 * one final line break removed.
 */
module Fence {
  import opened Wrappers
  import opened Strings

  /** The optional language tag inside the fence, matched ignoring case. */
  const FenceTag: string := "cypher"

  /** A fence marker of three backticks starts at index `i`. */
  predicate FenceAt(text: string, i: int) {
    0 <= i && i + 3 <= |text| && text[i] == '`' && text[i + 1] == '`' && text[i + 2] == '`'
  }

  /** The first fence marker at or after `from`. */
  function FindFence(text: string, from: nat): (r: Option<nat>)
    ensures r.Some? ==> from <= r.value && FenceAt(text, r.value)
    ensures r.Some? ==> forall j :: from <= j < r.value ==> !FenceAt(text, j)
    ensures r.None? ==> forall j :: from <= j ==> !FenceAt(text, j)
    decreases |text| - from
  {
    if from + 3 > |text| then None
    else if FenceAt(text, from) then Some(from)
    else FindFence(text, from + 1)
  }

  /**
   * Group 1 of the pattern, given the text between the two markers: the tag
   * if present, then `\s*`, is consumed before the group, and a final line
   * break is left to the `\n?` in front of the closing marker.
   */
  function BlockContent(inner: string): (g: string)
    ensures Strip(g) == Strip(if StartsWithCI(inner, FenceTag) then inner[|FenceTag|..] else inner)
  {
    var afterTag := if StartsWithCI(inner, FenceTag) then inner[|FenceTag|..] else inner;
    var body := TrimStart(afterTag);
    if body != [] && body[|body| - 1] == '\n' then
      StripWithoutFinalLineFeed(afterTag);
      body[..|body| - 1]
    else
      body
  }

  /** Dropping the final line feed of a text's `str.lstrip()` leaves its `str.strip()` as it was. */
  lemma StripWithoutFinalLineFeed(s: string)
    requires TrimStart(s) != [] && TrimStart(s)[|TrimStart(s)| - 1] == '\n'
    ensures Strip(TrimStart(s)[..|TrimStart(s)| - 1]) == Strip(s)
  {
    var body := TrimStart(s);
    TrimEndSpaces(body[..|body| - 1], ['\n']);
    assert body[..|body| - 1] + ['\n'] == body;
  }

  /** Group 1 of the first match of the fence pattern, if the text has one. */
  function FencedBlock(text: string): Option<string> {
    match FindFence(text, 0)
    case None => None
    case Some(open) =>
      match FindFence(text, open + 3)
      case None => None
      case Some(close) => Some(BlockContent(text[open + 3..close]))
  }

  /** No fence marker occurs anywhere in `s`. */
  predicate NoMarker(s: string) {
    forall j :: 0 <= j < |s| ==> !FenceAt(s, j)
  }

  /**
   * No fence marker starts inside `s`, not even one completed by the
   * backticks of a marker that follows `s`. Single backticks and pairs, as
   * in inline code or quoted identifiers, are allowed unless they end `s`.
   */
  predicate NoMarkerIn(s: string) {
    forall j :: 0 <= j < |s| ==> !FenceAt(s + "```", j)
  }

  /** Text without a fence marker has no fenced block. */
  lemma NoMarkerNoBlock(text: string)
    requires NoMarker(text)
    ensures FencedBlock(text) == None
  {
    assert FindFence(text, 0) == None;
  }

  /** Text without a backtick has no fence marker, before another marker or alone. */
  lemma NoBacktickNoMarker(s: string)
    requires '`' !in s
    ensures NoMarker(s) && NoMarkerIn(s)
  {
    forall j | 0 <= j < |s|
      ensures !FenceAt(s + "```", j)
    {
      assert (s + "```")[j] == s[j];
    }
  }

  /** Text without a backtick has no fenced block. */
  lemma NoBacktickNoBlock(text: string)
    requires '`' !in text
    ensures FencedBlock(text) == None
  {
    NoBacktickNoMarker(text);
    NoMarkerNoBlock(text);
  }

  /**
   * Wrapping text in fences: whatever follows the fenced block, as long as
   * no fence marker starts before it or inside it, the block found is the
   * text between the markers.
   */
  lemma FencedBlockOf(pre: string, inner: string, post: string)
    requires NoMarkerIn(pre) && NoMarkerIn(inner)
    ensures FencedBlock(pre + "```" + inner + "```" + post) == Some(BlockContent(inner))
  {
    var text := pre + "```" + inner + "```" + post;
    var open := |pre|;
    var close := |pre| + 3 + |inner|;
    NoMarkerBeforeFence(pre, inner, post);
    assert FenceAt(text, open);
    assert FindFence(text, 0) == Some(open) by {
      FindFenceIsFirst(text, 0, open);
    }
    NoMarkerInsideFence(pre, inner, post);
    assert FenceAt(text, close);
    assert FindFence(text, open + 3) == Some(close) by {
      FindFenceIsFirst(text, open + 3, close);
    }
    assert text[open + 3..close] == inner;
  }

  lemma NoMarkerBeforeFence(pre: string, inner: string, post: string)
    requires NoMarkerIn(pre)
    ensures forall j :: 0 <= j < |pre| ==> !FenceAt(pre + "```" + inner + "```" + post, j)
  {
    forall j | 0 <= j < |pre|
      ensures !FenceAt(pre + "```" + inner + "```" + post, j)
    {
      OpeningMarker(pre, inner + "```" + post, j);
      assert pre + "```" + inner + "```" + post == pre + "```" + (inner + "```" + post);
    }
  }

  lemma NoMarkerInsideFence(pre: string, inner: string, post: string)
    requires NoMarkerIn(inner)
    ensures var text := pre + "```" + inner + "```" + post;
            forall j :: |pre| + 3 <= j < |pre| + 3 + |inner| ==> !FenceAt(text, j)
  {
    var text := pre + "```" + inner + "```" + post;
    var open := |pre|;
    var rest := inner + "```" + post;
    assert text == pre + "```" + rest;
    forall j | open + 3 <= j < open + 3 + |inner|
      ensures !FenceAt(text, j)
    {
      OpeningMarker(inner, post, j - open - 3);
      assert text[j] == rest[j - open - 3];
      assert text[j + 1] == rest[j - open - 2];
      assert text[j + 2] == rest[j - open - 1];
    }
  }

  /** A marker inside `s + "```" + rest` that starts within `s` is one of `s + "```"`. */
  lemma OpeningMarker(s: string, rest: string, j: nat)
    requires NoMarkerIn(s) && j < |s|
    ensures !FenceAt(s + "```" + rest, j)
  {
    var t := s + "```";
    assert !FenceAt(t, j);
    assert (t + rest)[j] == t[j] && (t + rest)[j + 1] == t[j + 1] && (t + rest)[j + 2] == t[j + 2];
  }

  /** The search returns the first marker at or after its start. */
  lemma FindFenceIsFirst(text: string, from: nat, i: nat)
    requires from <= i && FenceAt(text, i)
    requires forall j :: from <= j < i ==> !FenceAt(text, j)
    ensures FindFence(text, from) == Some(i)
  {
  }
}
