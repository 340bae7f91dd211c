/**
 * The regular expressions of the line scanner in codebase_rag/services/llm.py,
 * written out as predicates over one line. All are matched at the start of the
 * line (`re.match`) and, except the numbered-list guard, with `re.IGNORECASE`.
 */
module Patterns {
  import opened Strings

  /** The alternatives of `cypher_start_pattern`. */
  const StartKeywords: seq<string> := ["MATCH", "WITH", "CALL", "RETURN", "CREATE", "MERGE", "UNWIND"]

  /** The alternatives of `cypher_continuation`. */
  const ContinuationKeywords: seq<string> :=
    ["MATCH", "WHERE", "AND", "OR", "RETURN", "LIMIT", "ORDER", "WITH", "SKIP", "UNWIND",
     "CALL", "DELETE", "DETACH", "SET", "REMOVE", "CREATE", "MERGE", "ON CREATE", "ON MATCH"]

  /** The literal alternatives of `conversational_starts`; its `[0-9]+\.` alternative is `IsNumberedItem`. */
  const ConversationalPrefixes: seq<string> :=
    ["Note", "This query", "Explanation", "Here", "If you", "The query",
     "Analysis", "Result", "Or", "Alternatively", "You can"]

  /**
   * `(kw)\b` at the start of `s`, ignoring case: `s` begins with the keyword
   * and the keyword is not followed by a word character. Every keyword above
   * ends in a letter, so the boundary is exactly "end of text or a non-word
   * character next".
   */
  predicate MatchesKeyword(s: string, kw: string) {
    StartsWithCI(s, kw) && (|s| == |kw| || !IsWordChar(s[|kw|]))
  }

  /** `(K1|K2|...)\b` at the start of `s`, ignoring case: one of the alternatives matches. */
  predicate MatchesAnyKeyword(s: string, keywords: seq<string>) {
    keywords != [] && (MatchesKeyword(s, keywords[0]) || MatchesAnyKeyword(s, keywords[1..]))
  }

  /** `P1|P2|...` at the start of `s`, ignoring case, for alternatives without a word boundary. */
  predicate StartsWithAnyCI(s: string, prefixes: seq<string>) {
    prefixes != [] && (StartsWithCI(s, prefixes[0]) || StartsWithAnyCI(s, prefixes[1..]))
  }

  /** An alternation matches exactly when one of its alternatives does. */
  lemma {:induction false} MatchesAnyKeywordIff(s: string, keywords: seq<string>)
    ensures MatchesAnyKeyword(s, keywords) <==> exists k :: 0 <= k < |keywords| && MatchesKeyword(s, keywords[k])
  {
    if keywords != [] {
      MatchesAnyKeywordIff(s, keywords[1..]);
      if exists k :: 0 <= k < |keywords| && MatchesKeyword(s, keywords[k]) {
        var k :| 0 <= k < |keywords| && MatchesKeyword(s, keywords[k]);
        if k > 0 {
          assert keywords[1..][k - 1] == keywords[k];
        }
      }
    }
  }

  lemma {:induction false} StartsWithAnyCIIff(s: string, prefixes: seq<string>)
    ensures StartsWithAnyCI(s, prefixes) <==> exists k :: 0 <= k < |prefixes| && StartsWithCI(s, prefixes[k])
  {
    if prefixes != [] {
      StartsWithAnyCIIff(s, prefixes[1..]);
      if exists k :: 0 <= k < |prefixes| && StartsWithCI(s, prefixes[k]) {
        var k :| 0 <= k < |prefixes| && StartsWithCI(s, prefixes[k]);
        if k > 0 {
          assert prefixes[1..][k - 1] == prefixes[k];
        }
      }
    }
  }

  /**
   * `^\s*(MATCH|WITH|CALL|RETURN|CREATE|MERGE|UNWIND)\b`. The leading `\s*`
   * may give back whitespace only to leave a whitespace character in front
   * of a keyword, which never matches, so the pattern matches exactly when
   * the line with its leading whitespace removed starts with a keyword.
   */
  predicate IsStartLine(line: string) {
    MatchesAnyKeyword(TrimStart(line), StartKeywords)
  }

  /** `^\s*(MATCH|WHERE|...|ON CREATE|ON MATCH)\b`. */
  predicate IsContinuationLine(line: string) {
    MatchesAnyKeyword(TrimStart(line), ContinuationKeywords)
  }

  /** The length of the run of digits that opens `s`. */
  function LeadingDigits(s: string): (n: nat)
    ensures n <= |s|
    ensures forall i :: 0 <= i < n ==> IsDigit(s[i])
    ensures n == |s| || !IsDigit(s[n])
  {
    if s != [] && IsDigit(s[0]) then 1 + LeadingDigits(s[1..]) else 0
  }

  /**
   * `^[0-9]+\.`: one or more digits followed by a period. Giving back digits
   * never helps the `\.` that follows (it would face a digit), so the pattern
   * matches exactly when the whole leading run of digits is followed by a period.
   */
  predicate IsNumberedItem(s: string) {
    var n := LeadingDigits(s);
    0 < n < |s| && s[n] == '.'
  }

  /**
   * `conversational_starts`, matched against a stripped line. The pattern has
   * no `\b`, so the alternatives are plain case-insensitive prefixes.
   */
  predicate IsConversational(s: string) {
    StartsWithAnyCI(s, ConversationalPrefixes) || IsNumberedItem(s)
  }

  // A stripped line that opens a line comment or a block comment.
  predicate IsComment(s: string) {
    "//" <= s || "/*" <= s
  }

  /**
   * The numbered-list guard that follows the start pattern never rejects a
   * line: a line that matches `^\s*KEYWORD` has a letter as its first
   * non-blank character, and `^\s*\d+\.` needs a digit there.
   */
  lemma NumberedGuardVacuous(line: string)
    ensures IsStartLine(line) ==> !IsNumberedItem(TrimStart(line))
  {
    if IsStartLine(line) {
      var s := TrimStart(line);
      MatchesAnyKeywordIff(s, StartKeywords);
      var k :| 0 <= k < |StartKeywords| && MatchesKeyword(s, StartKeywords[k]);
      assert LowerStr(StartKeywords[k])[0] == LowerStr(s)[0];
      assert IsLetter(Lower(s[0]));
    }
  }

  /**
   * Because the conversational prefix `Or` has no word boundary, every line
   * opening with the clause keywords `OR` or `ORDER` counts as conversational,
   * although the same line also matches the continuation pattern.
   */
  lemma OrClausesAreConversational(s: string)
    requires MatchesKeyword(s, "OR") || MatchesKeyword(s, "ORDER")
    ensures IsConversational(s) && IsContinuationLine(s)
  {
    var kw := if MatchesKeyword(s, "OR") then "OR" else "ORDER";
    StartsWithCIChars(s, kw);
    assert Lower(s[0]) == 'o' && Lower(s[1]) == 'r';
    OrHeadIsConversational(s);
    OrClauseContinues(s, kw);
  }

  /** Every text opening with the letters `or`, in any case, is conversational. */
  lemma OrHeadIsConversational(s: string)
    requires |s| >= 2 && Lower(s[0]) == 'o' && Lower(s[1]) == 'r'
    ensures IsConversational(s)
  {
    StartsWithCIChars(s, "Or");
    assert ConversationalPrefixes[8] == "Or";
    StartsWithAnyCIIff(s, ConversationalPrefixes);
  }

  lemma OrClauseContinues(s: string, kw: string)
    requires (kw == "OR" || kw == "ORDER") && MatchesKeyword(s, kw)
    ensures IsContinuationLine(s)
  {
    StartsWithCIChars(s, kw);
    assert Lower(s[0]) == 'o';
    LeadingSpacesUnique(s, 0);
    assert ContinuationKeywords[3] == "OR" && ContinuationKeywords[6] == "ORDER";
    MatchesAnyKeywordIff(s, ContinuationKeywords);
  }

  /** The clause lines `ORDER BY n.name` and `OR n.size > 10` end a query scan. */
  lemma OrderAndOrLinesAreConversational()
    ensures IsConversational("ORDER BY n.name") && IsContinuationLine("ORDER BY n.name")
    ensures IsConversational("OR n.size > 10") && IsContinuationLine("OR n.size > 10")
  {
    assert StartsWithCI("ORDER BY n.name", "ORDER") && !IsWordChar("ORDER BY n.name"[5]);
    OrClausesAreConversational("ORDER BY n.name");
    assert StartsWithCI("OR n.size > 10", "OR") && !IsWordChar("OR n.size > 10"[2]);
    OrClausesAreConversational("OR n.size > 10");
  }

  /** Every start keyword is a non-empty word of capital letters. */
  lemma StartKeywordIsWord(k: nat)
    requires k < |StartKeywords|
    ensures IsCapitalWord(StartKeywords[k])
  {
  }

  predicate IsCapitalWord(kw: string) {
    |kw| >= 1 && forall i :: 0 <= i < |kw| ==> 'A' <= kw[i] <= 'Z'
  }

  /** A keyword match survives appending text that begins with a non-word character. */
  lemma KeywordSurvivesAppend(s: string, rest: string, kw: string)
    requires MatchesKeyword(s, kw)
    requires rest == [] || !IsWordChar(rest[0])
    ensures MatchesKeyword(s + rest, kw)
  {
    StartsWithCIChars(s, kw);
    StartsWithCIChars(s + rest, kw);
    if |s| == |kw| && rest != [] {
      assert (s + rest)[|kw|] == rest[0];
    }
  }

  /**
   * A keyword match survives `str.rstrip()`: the keyword's letters are not
   * whitespace, and what follows them is either kept or cut away entirely.
   */
  lemma KeywordSurvivesTrimEnd(s: string, kw: string)
    requires MatchesKeyword(s, kw) && IsCapitalWord(kw)
    ensures MatchesKeyword(TrimEnd(s), kw)
    ensures KeptLength(s) >= |kw|
  {
    StartsWithCIChars(s, kw);
    var n := KeptLength(s);
    assert Lower(s[|kw| - 1]) == Lower(kw[|kw| - 1]);
    assert !IsSpace(s[|kw| - 1]);
    StartsWithCIChars(TrimEnd(s), kw);
  }

  /** Non-empty, no whitespace at either end, and opening with a start keyword followed by a word boundary. */
  predicate IsTrimmedKeywordText(v: string) {
    v != [] && !IsSpace(v[0]) && !IsSpace(v[|v| - 1]) && MatchesAnyKeyword(v, StartKeywords)
  }

  /** A keyword followed by a line break or by nothing survives `str.rstrip()` as a trimmed keyword text. */
  lemma KeywordTextTrimmed(t: string, rest: string, k: nat)
    requires k < |StartKeywords| && MatchesKeyword(t, StartKeywords[k]) && !IsSpace(t[0])
    requires rest == [] || rest[0] == '\n'
    ensures IsTrimmedKeywordText(TrimEnd(t + rest))
  {
    var kw := StartKeywords[k];
    StartKeywordIsWord(k);
    KeywordSurvivesAppend(t, rest, kw);
    KeywordSurvivesTrimEnd(t + rest, kw);
    var v := TrimEnd(t + rest);
    assert v[0] == t[0];
    MatchesAnyKeywordIff(v, StartKeywords);
  }

  /** A start line has a non-blank first character once its indentation is removed. */
  lemma StartLineShape(line: string) returns (k: nat)
    requires IsStartLine(line)
    ensures k < |StartKeywords| && MatchesKeyword(TrimStart(line), StartKeywords[k])
    ensures TrimStart(line) != [] && !IsSpace(TrimStart(line)[0])
  {
    var t := TrimStart(line);
    MatchesAnyKeywordIff(t, StartKeywords);
    k :| 0 <= k < |StartKeywords| && MatchesKeyword(t, StartKeywords[k]);
    StartKeywordIsWord(k);
    StartsWithCIChars(t, StartKeywords[k]);
    assert Lower(t[0]) == Lower(StartKeywords[k][0]);
  }

  /** The part of a joined text after its first line: empty, or a line break and the remaining lines. */
  lemma JoinTail(window: seq<string>) returns (rest: string)
    requires |window| >= 1
    ensures Join(window, '\n') == window[0] + rest
    ensures rest == [] || rest[0] == '\n'
  {
    if |window| == 1 {
      rest := [];
      assert window[0] + rest == window[0];
    } else {
      rest := ['\n'] + Join(window[1..], '\n');
      assert window[0] + ['\n'] + Join(window[1..], '\n') == window[0] + rest;
    }
  }

  /** A text of several lines whose first line starts a query keeps that keyword at its head once joined and stripped. */
  lemma StripJoinKeepsKeyword(window: seq<string>)
    requires |window| >= 1 && IsStartLine(window[0])
    ensures IsTrimmedKeywordText(Strip(Join(window, '\n')))
  {
    var k := StartLineShape(window[0]);
    var t := TrimStart(window[0]);
    var rest := JoinTail(window);
    TrimStartAppend(window[0], rest);
    KeywordTextTrimmed(t, rest, k);
  }

  /** The first two characters of `t` are those of `kw`, ignoring case. */
  predicate Head2(t: string, kw: string)
    requires |kw| >= 2
  {
    |t| >= 2 && Lower(t[0]) == Lower(kw[0]) && Lower(t[1]) == Lower(kw[1])
  }

  /** The first three characters of `t` are those of `kw`, ignoring case. */
  predicate Head3(t: string, kw: string)
    requires |kw| >= 3
  {
    Head2(t, kw) && |t| >= 3 && Lower(t[2]) == Lower(kw[2])
  }

  /** A text opening with a start keyword opens with one of these letter pairs. */
  lemma StartKeywordHeads(t: string)
    ensures MatchesAnyKeyword(t, StartKeywords) ==>
              Head2(t, "MA") || Head2(t, "WI") || Head2(t, "CA") || Head2(t, "RE") ||
              Head2(t, "CR") || Head2(t, "ME") || Head2(t, "UN")
  {
    if MatchesAnyKeyword(t, StartKeywords) {
      MatchesAnyKeywordIff(t, StartKeywords);
      var k :| 0 <= k < |StartKeywords| && MatchesKeyword(t, StartKeywords[k]);
      StartsWithCIChars(t, StartKeywords[k]);
      assert Lower(t[0]) == Lower(StartKeywords[k][0]) && Lower(t[1]) == Lower(StartKeywords[k][1]);
    }
  }

  /** A text opening with a continuation keyword opens with one of these letter pairs. */
  lemma ContinuationKeywordHeads(t: string)
    ensures MatchesAnyKeyword(t, ContinuationKeywords) ==>
              Head2(t, "MA") || Head2(t, "WH") || Head2(t, "AN") || Head2(t, "OR") || Head2(t, "RE") ||
              Head2(t, "LI") || Head2(t, "WI") || Head2(t, "SK") || Head2(t, "UN") || Head2(t, "CA") ||
              Head2(t, "DE") || Head2(t, "SE") || Head2(t, "CR") || Head2(t, "ME") || Head2(t, "ON")
  {
    if MatchesAnyKeyword(t, ContinuationKeywords) {
      MatchesAnyKeywordIff(t, ContinuationKeywords);
      var k :| 0 <= k < |ContinuationKeywords| && MatchesKeyword(t, ContinuationKeywords[k]);
      if k < 5 {
        ContinuationHeadsFrom0(t, k);
      } else if k < 10 {
        ContinuationHeadsFrom5(t, k);
      } else if k < 15 {
        ContinuationHeadsFrom10(t, k);
      } else {
        ContinuationHeadsFrom15(t, k);
      }
    }
  }

  // The letter pairs of the continuation keywords, five at a time.

  lemma ContinuationHeadsFrom0(t: string, k: nat)
    requires k < 5 && MatchesKeyword(t, ContinuationKeywords[k])
    ensures Head2(t, "MA") || Head2(t, "WH") || Head2(t, "AN") || Head2(t, "OR") || Head2(t, "RE")
  {
    var kw := ContinuationKeywords[k];
    StartsWithCIChars(t, kw);
    assert Lower(t[0]) == Lower(kw[0]) && Lower(t[1]) == Lower(kw[1]);
  }

  lemma ContinuationHeadsFrom5(t: string, k: nat)
    requires 5 <= k < 10 && MatchesKeyword(t, ContinuationKeywords[k])
    ensures Head2(t, "LI") || Head2(t, "OR") || Head2(t, "WI") || Head2(t, "SK") || Head2(t, "UN")
  {
    var kw := ContinuationKeywords[k];
    StartsWithCIChars(t, kw);
    assert Lower(t[0]) == Lower(kw[0]) && Lower(t[1]) == Lower(kw[1]);
  }

  lemma ContinuationHeadsFrom10(t: string, k: nat)
    requires 10 <= k < 15 && MatchesKeyword(t, ContinuationKeywords[k])
    ensures Head2(t, "CA") || Head2(t, "DE") || Head2(t, "SE") || Head2(t, "RE")
  {
    var kw := ContinuationKeywords[k];
    StartsWithCIChars(t, kw);
    assert Lower(t[0]) == Lower(kw[0]) && Lower(t[1]) == Lower(kw[1]);
  }

  lemma ContinuationHeadsFrom15(t: string, k: nat)
    requires 15 <= k < |ContinuationKeywords| && MatchesKeyword(t, ContinuationKeywords[k])
    ensures Head2(t, "CR") || Head2(t, "ME") || Head2(t, "ON")
  {
    var kw := ContinuationKeywords[k];
    StartsWithCIChars(t, kw);
    assert Lower(t[0]) == Lower(kw[0]) && Lower(t[1]) == Lower(kw[1]);
  }

  /** A conversational line opens with a digit or with the first letters of one of the prefixes. */
  lemma ConversationalHeads(s: string)
    ensures IsConversational(s) ==>
              (s != [] && IsDigit(s[0])) ||
              Head3(s, "NOT") || Head3(s, "THI") || Head3(s, "EXP") || Head3(s, "HER") || Head2(s, "IF") ||
              Head3(s, "THE") || Head3(s, "ANA") || Head3(s, "RES") || Head2(s, "OR") || Head3(s, "ALT") ||
              Head3(s, "YOU")
  {
    if StartsWithAnyCI(s, ConversationalPrefixes) {
      StartsWithAnyCIIff(s, ConversationalPrefixes);
      var k :| 0 <= k < |ConversationalPrefixes| && StartsWithCI(s, ConversationalPrefixes[k]);
      if k < 4 {
        ConversationalHeadsFrom0(s, k);
      } else if k < 8 {
        ConversationalHeadsFrom4(s, k);
      } else {
        ConversationalHeadsFrom8(s, k);
      }
    }
  }

  // The leading letters of the conversational prefixes, four at a time.

  lemma ConversationalHeadsFrom0(s: string, k: nat)
    requires k < 4 && StartsWithCI(s, ConversationalPrefixes[k])
    ensures Head3(s, "NOT") || Head3(s, "THI") || Head3(s, "EXP") || Head3(s, "HER")
  {
    var p := ConversationalPrefixes[k];
    StartsWithCIChars(s, p);
    assert Lower(s[0]) == Lower(p[0]) && Lower(s[1]) == Lower(p[1]) && Lower(s[2]) == Lower(p[2]);
  }

  lemma ConversationalHeadsFrom4(s: string, k: nat)
    requires 4 <= k < 8 && StartsWithCI(s, ConversationalPrefixes[k])
    ensures Head2(s, "IF") || Head3(s, "THE") || Head3(s, "ANA") || Head3(s, "RES")
  {
    var p := ConversationalPrefixes[k];
    StartsWithCIChars(s, p);
    assert Lower(s[0]) == Lower(p[0]) && Lower(s[1]) == Lower(p[1]);
    if k > 4 {
      assert Lower(s[2]) == Lower(p[2]);
    }
  }

  lemma ConversationalHeadsFrom8(s: string, k: nat)
    requires 8 <= k < |ConversationalPrefixes| && StartsWithCI(s, ConversationalPrefixes[k])
    ensures Head2(s, "OR") || Head3(s, "ALT") || Head3(s, "YOU")
  {
    var p := ConversationalPrefixes[k];
    StartsWithCIChars(s, p);
    assert Lower(s[0]) == Lower(p[0]) && Lower(s[1]) == Lower(p[1]);
    if k > 8 {
      assert Lower(s[2]) == Lower(p[2]);
    }
  }
}
