/**
 * `_ensure_semicolon` in codebase_rag/services/llm.py: every query handed
 * back by the cleaner ends in exactly one statement terminator.
 */
module Normalizer {
  import opened Strings

  /** The statement terminator appended to every query (`CYPHER_SEMICOLON`). */
  const CypherSemicolon: char := ';'

  /** `s` ends in one terminator, and the character before it, if any, is not another one. */
  predicate EndsWithSingleSemicolon(s: string) {
    |s| >= 1 && s[|s| - 1] == CypherSemicolon && (|s| == 1 || s[|s| - 2] != CypherSemicolon)
  }

  /**
   * Removes every trailing terminator and appends exactly one. Nothing else
   * of the query changes: leading and trailing whitespace is kept.
   */
  function EnsureSemicolon(query: string): (r: string)
    ensures EndsWithSingleSemicolon(r)
    ensures r[..|r| - 1] <= query
    ensures forall i :: |r| - 1 <= i < |query| ==> query[i] == CypherSemicolon
  {
    RStripChar(query, CypherSemicolon) + [CypherSemicolon]
  }

  /** A query already ending in a single terminator is left as it is, and only such a query is. */
  lemma EnsureSemicolonFixedPoints(q: string)
    ensures EnsureSemicolon(q) == q <==> EndsWithSingleSemicolon(q)
  {
    if EndsWithSingleSemicolon(q) {
      var body := RStripChar(q, CypherSemicolon);
      assert body == q[..|q| - 1];
      assert EnsureSemicolon(q) == q[..|q| - 1] + [q[|q| - 1]];
    }
  }

  /** Applying the normalisation twice gives what applying it once does. */
  lemma EnsureSemicolonIdempotent(q: string)
    ensures EnsureSemicolon(EnsureSemicolon(q)) == EnsureSemicolon(q)
  {
    EnsureSemicolonFixedPoints(EnsureSemicolon(q));
  }

  /** A query that already ends in one terminator maps to itself; doubled terminators collapse to one. */
  lemma EnsureSemicolonExamples()
    ensures EnsureSemicolon("MATCH (n) RETURN n;") == "MATCH (n) RETURN n;"
    ensures EnsureSemicolon("MATCH (n) RETURN n;;") == "MATCH (n) RETURN n;"
    ensures EnsureSemicolon("MATCH (n) RETURN n") == "MATCH (n) RETURN n;"
  {
    EnsureSemicolonFixedPoints("MATCH (n) RETURN n;");
    var q := "MATCH (n) RETURN n;;";
    assert q[..|q| - 1][..|q| - 2] == "MATCH (n) RETURN n";
  }
}
