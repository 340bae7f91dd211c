/**
 * `_clean_cypher_response` in codebase_rag/services/llm.py: the dispatcher
 * that turns a model's free-text answer into one terminated Cypher statement.
 * Its `try`/`except ValueError` fallbacks become matches on the scanner's
 * `Result`, so the function is total.
 */
module Cleaning {
  import opened Wrappers
  import opened Strings
  import opened Patterns
  import opened Scanner
  import opened Normalizer
  import opened Fence

  /** The language prefix removed on the last-resort path (`CYPHER_PREFIX`). */
  const CypherPrefix: string := "cypher"

  /** The last-resort path: one leading language prefix, compared ignoring case, is dropped and the rest stripped. */
  function StripLanguagePrefix(query: string): string {
    if StartsWithCI(query, CypherPrefix) then Strip(query[|CypherPrefix|..]) else query
  }

  /**
   * The three paths in order: the first fenced block (scanned, or taken whole
   * when the scan finds no start line), the scan of the whole text, and the
   * stripped text without its language prefix. Each ends in the terminator.
   */
  function CleanCypherResponse(responseText: string): (r: string)
    ensures EndsWithSingleSemicolon(r)
  {
    match FencedBlock(responseText)
    case Some(block) =>
      var query := Strip(block);
      (match Extract(query)
       case Ok(extracted) => EnsureSemicolon(extracted)
       case Err(_) => EnsureSemicolon(query))
    case None =>
      match Extract(responseText)
      case Ok(query) => EnsureSemicolon(query)
      case Err(_) => EnsureSemicolon(StripLanguagePrefix(Strip(responseText)))
  }

  /** The content of a fenced block as the cleaner scans it: tag removed, then stripped. */
  function FencedQuery(inner: string): string {
    Strip(if StartsWithCI(inner, FenceTag) then inner[|FenceTag|..] else inner)
  }

  /**
   * The fence takes priority and only its content matters: the result is the
   * terminated scan of the block's content, or the whole content when the
   * scan finds no start line, whatever text surrounds the block.
   */
  lemma CleanFencedBlock(pre: string, inner: string, post: string)
    requires NoMarkerIn(pre) && NoMarkerIn(inner)
    ensures Extract(FencedQuery(inner)).Ok? ==>
              CleanCypherResponse(pre + "```" + inner + "```" + post) == EnsureSemicolon(Extract(FencedQuery(inner)).value)
    ensures Extract(FencedQuery(inner)).Err? ==>
              CleanCypherResponse(pre + "```" + inner + "```" + post) == EnsureSemicolon(FencedQuery(inner))
  {
    FencedBlockOf(pre, inner, post);
  }

  /** Text around the first fenced block never reaches the result. */
  lemma CleanIgnoresTextAroundFence(pre1: string, post1: string, pre2: string, post2: string, inner: string)
    requires NoMarkerIn(pre1) && NoMarkerIn(pre2) && NoMarkerIn(inner)
    ensures CleanCypherResponse(pre1 + "```" + inner + "```" + post1)
         == CleanCypherResponse(pre2 + "```" + inner + "```" + post2)
  {
    FencedBlockOf(pre1, inner, post1);
    FencedBlockOf(pre2, inner, post2);
  }

  /**
   * Without a fence the scan decides: a text with a start line gives its
   * terminated scan, and a text without one gives its stripped self, without
   * the language prefix, terminated.
   */
  lemma CleanWithoutFence(text: string)
    requires FencedBlock(text).None?
    ensures !NoStartLine(Split(text, '\n')) ==> CleanCypherResponse(text) == EnsureSemicolon(Extract(text).value)
    ensures NoStartLine(Split(text, '\n')) ==>
              CleanCypherResponse(text) == EnsureSemicolon(StripLanguagePrefix(Strip(text)))
  {
    ExtractFailsIffNoStartLine(text);
  }

  /** A whole text the scanner keeps from its first line to its last. */
  predicate IsSingleQuery(q: string) {
    IsFirstQueryWindow(Split(q, '\n'), 0, |Split(q, '\n')|)
  }

  /** The scan of a text it keeps whole is the stripped text. */
  lemma ExtractSingleQuery(q: string)
    requires IsSingleQuery(q)
    ensures Extract(q) == Ok(Strip(q))
  {
    var lines := Split(q, '\n');
    ExtractIsFirstWindow(q, 0, |lines|);
    assert lines[0..|lines|] == lines;
    JoinSplit(q, '\n');
  }

  /** A bare query the scanner keeps whole is only stripped and terminated. */
  lemma CleanSingleQuery(q: string)
    requires FencedBlock(q).None? && IsSingleQuery(q)
    ensures CleanCypherResponse(q) == EnsureSemicolon(Strip(q))
  {
    ExtractSingleQuery(q);
  }

  /** A stripped query on lines of its own after the `cypher` tag is what the cleaner scans. */
  lemma TaggedBlockQuery(q: string)
    requires Strip(q) == q
    ensures FencedQuery("cypher\n" + q + "\n") == q
  {
    var inner := "cypher\n" + q + "\n";
    assert StartsWithCI(inner, FenceTag) by {
      assert inner[..6] == FenceTag;
    }
    assert inner[|FenceTag|..] == "\n" + (q + "\n");
    TrimStartSpaces("\n", q + "\n");
    if q != [] {
      TrimStartAppend(q, "\n");
    }
    TrimEndSpaces(q, "\n");
  }

  /** A `cypher`-tagged fence around lines of their own, read as markers around a block. */
  lemma TaggedFence(pre: string, q: string, post: string) returns (inner: string)
    requires NoMarker(q)
    ensures inner == "cypher\n" + q + "\n" && NoMarkerIn(inner)
    ensures pre + "```cypher\n" + q + "\n```" + post == pre + "```" + inner + "```" + post
  {
    inner := "cypher\n" + q + "\n";
    var fenced := "```" + inner + "```";
    assert "```cypher\n" + q + "\n```" == fenced by {
      assert |fenced| == |q| + 14;
      forall i | 0 <= i < |fenced|
        ensures ("```cypher\n" + q + "\n```")[i] == fenced[i]
      {
      }
    }
    assert pre + "```cypher\n" + q + "\n```" + post == pre + fenced + post;
    var t := inner + "```";
    assert t == "cypher\n" + q + "\n```";
    forall j | 0 <= j < |inner|
      ensures !FenceAt(t, j)
    {
      if j < 7 {
        assert t[j] == "cypher\n"[j];
      } else if j + 2 < 7 + |q| {
        assert !FenceAt(q, j - 7);
        assert t[j] == q[j - 7] && t[j + 1] == q[j - 6] && t[j + 2] == q[j - 5];
      } else {
        assert t[7 + |q|] == '\n';
      }
    }
  }

  /**
   * The same stripped query, bare or in a `cypher`-tagged fence on lines of
   * its own with any text around it, is cleaned to the same statement when
   * the scan finds a start line in it, or when it does not open with the
   * language prefix; a query the scanner keeps whole is only terminated.
   */
  lemma CleanFencedMatchesBare(pre: string, q: string, post: string)
    requires NoMarkerIn(pre) && NoMarker(q) && Strip(q) == q
    requires Extract(q).Ok? || !StartsWithCI(q, CypherPrefix)
    ensures CleanCypherResponse(pre + "```cypher\n" + q + "\n```" + post) == CleanCypherResponse(q)
    ensures IsSingleQuery(q) ==> CleanCypherResponse(q) == EnsureSemicolon(q)
  {
    var inner := TaggedFence(pre, q, post);
    TaggedBlockQuery(q);
    CleanFencedBlock(pre, inner, post);
    NoMarkerNoBlock(q);
    if IsSingleQuery(q) {
      ExtractSingleQuery(q);
    }
  }

  /**
   * The other case: a query without a start line that opens with the
   * language prefix keeps the prefix inside a fence, where the block is taken
   * whole, and loses it bare, on the last-resort path; so the two differ.
   */
  lemma CleanFencedDiffersFromBare(pre: string, q: string, post: string)
    requires NoMarkerIn(pre) && NoMarker(q) && Strip(q) == q
    requires Extract(q).Err? && StartsWithCI(q, CypherPrefix)
    ensures CleanCypherResponse(pre + "```cypher\n" + q + "\n```" + post) == EnsureSemicolon(q)
    ensures CleanCypherResponse(q) == EnsureSemicolon(StripLanguagePrefix(q))
    ensures CleanCypherResponse(pre + "```cypher\n" + q + "\n```" + post) != CleanCypherResponse(q)
  {
    var inner := TaggedFence(pre, q, post);
    TaggedBlockQuery(q);
    CleanFencedBlock(pre, inner, post);
    NoMarkerNoBlock(q);
    var m := LanguagePrefixTail(q);
    RStripTailShorter(q, m, CypherSemicolon);
  }

  /** Dropping the language prefix of a stripped text leaves a tail of it, cut after a letter or a blank. */
  lemma LanguagePrefixTail(q: string) returns (m: nat)
    requires Strip(q) == q && StartsWithCI(q, CypherPrefix)
    ensures |CypherPrefix| <= m <= |q| && StripLanguagePrefix(q) == q[m..]
    ensures q[m - 1] != CypherSemicolon
  {
    StartsWithCIChars(q, CypherPrefix);
    assert Lower(q[5]) == 'r';
    var t := q[|CypherPrefix|..];
    m := |CypherPrefix| + LeadingSpaces(t);
    var u := TrimStart(t);
    assert u == q[m..];
    StrippedEnds(q);
    KeptLengthUnique(u, |u|);
  }

  /** Terminating a text that opens with a start keyword keeps the keyword at its head. */
  lemma KeywordSurvivesEnsureSemicolon(v: string)
    requires IsTrimmedKeywordText(v)
    ensures MatchesAnyKeyword(EnsureSemicolon(v), StartKeywords)
  {
    MatchesAnyKeywordIff(v, StartKeywords);
    var k :| 0 <= k < |StartKeywords| && MatchesKeyword(v, StartKeywords[k]);
    var kw := StartKeywords[k];
    StartKeywordIsWord(k);
    StartsWithCIChars(v, kw);
    var body := RStripChar(v, CypherSemicolon);
    assert |body| >= |kw| by {
      assert Lower(v[|kw| - 1]) == Lower(kw[|kw| - 1]);
    }
    var r := EnsureSemicolon(v);
    assert r == body + [CypherSemicolon];
    StartsWithCIChars(r, kw);
    MatchesAnyKeywordIff(r, StartKeywords);
  }

  /**
   * When the text has no fence and a start line, the cleaned
   * statement begins with a start keyword followed by a word boundary.
   */
  lemma CleanStartsWithKeyword(text: string)
    requires FencedBlock(text).None? && !NoStartLine(Split(text, '\n'))
    ensures MatchesAnyKeyword(CleanCypherResponse(text), StartKeywords)
  {
    CleanWithoutFence(text);
    ExtractFailsIffNoStartLine(text);
    ExtractStartsWithKeyword(text);
    KeywordSurvivesEnsureSemicolon(Extract(text).value);
  }
}
