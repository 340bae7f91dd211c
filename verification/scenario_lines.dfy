/**
 * Shared ground for the expected outputs of test_llm_cleaning.py,
 * reproduce_issue_v3.py and reproduce_issue_v4.py, which the scenario
 * modules prove about the model.
 * A multi-line input is written as its lines, joined by line feeds. The
 * window the scanner keeps is read off line by line (`WindowFacts`), each
 * step of that reading being a small lemma over any lines of the same shape,
 * and each fact about a literal line is a lemma of its own. Where an input
 * goes on past the line that decides the stop, the lines after it are left
 * general: any lines without line breaks or backticks, which includes the
 * ones the test has there.
 */
module ScenarioLines {
  import opened Strings
  import opened Patterns
  import opened Scanner
  import opened Normalizer
  import opened Fence
  import opened Cleaning

  /** The indentation the multi-line test inputs carry on every line after the first. */
  const Indent: string := "        "

  lemma IndentIsBlank()
    ensures forall i :: 0 <= i < |Indent| ==> IsSpace(Indent[i])
  {
  }

  /** Indentation in front of a text with non-blank ends is what `str.strip()` removes. */
  lemma StripIndented(s: string)
    requires s != [] && !IsSpace(s[0]) && !IsSpace(s[|s| - 1])
    ensures Strip(Indent + s) == s && TrimStart(Indent + s) == s
  {
    IndentIsBlank();
    TrimStartSpaces(Indent, s);
    StripUnchanged(s);
    LeadingSpacesUnique(s, 0);
  }

  /** An indentation-only line strips to nothing. */
  lemma BlankIndent()
    ensures Strip(Indent) == [] && TrimStart(Indent) == []
  {
    IndentIsBlank();
    LeadingSpacesUnique(Indent, |Indent|);
  }

  /** A line with non-blank ends is left as it is by `str.strip()` and `str.lstrip()`. */
  lemma Unpadded(s: string)
    requires s != [] && !IsSpace(s[0]) && !IsSpace(s[|s| - 1])
    ensures Strip(s) == s && TrimStart(s) == s
  {
    StripUnchanged(s);
    LeadingSpacesUnique(s, 0);
  }

  /** A query not ending in a terminator gets exactly one appended. */
  lemma Terminate(s: string)
    requires s != [] && s[|s| - 1] != CypherSemicolon
    ensures EnsureSemicolon(s) == s + [CypherSemicolon]
  {
  }

  /** A line of the input: no line break inside it, and no backtick that could open a fence. */
  predicate PlainLine(line: string) {
    '\n' !in line && '`' !in line
  }

  predicate PlainLines(lines: seq<string>) {
    forall k :: 0 <= k < |lines| ==> PlainLine(lines[k])
  }

  /** The lines from index `from` on are plain, checked one line at a time. */
  predicate PlainFrom(lines: seq<string>, from: int)
    decreases |lines| - from
  {
    from >= |lines| || (0 <= from && PlainLine(lines[from]) && PlainFrom(lines, from + 1))
  }

  lemma {:induction false} PlainFromAll(lines: seq<string>, from: nat)
    requires PlainFrom(lines, from)
    decreases |lines| - from
    ensures forall k :: from <= k < |lines| ==> PlainLine(lines[k])
  {
    if from < |lines| {
      PlainFromAll(lines, from + 1);
    }
  }

  /**
   * An unfenced text whose lines hold a first query window is cleaned to the
   * terminated, stripped join of the window.
   */
  lemma CleanByWindow(lines: seq<string>, s: nat, e: nat)
    requires |lines| >= 1 && PlainLines(lines) && IsFirstQueryWindow(lines, s, e)
    ensures CleanCypherResponse(Join(lines, '\n')) == EnsureSemicolon(Strip(Join(lines[s..e], '\n')))
  {
    var text := Join(lines, '\n');
    SplitJoin(lines, '\n');
    JoinAvoids(lines, '\n', '`');
    NoBacktickNoBlock(text);
    ExtractIsFirstWindow(text, s, e);
  }

  /** No line in `from..to` is a start line, checked one line at a time. */
  predicate NoStartIn(lines: seq<string>, from: int, to: int)
    decreases to - from
  {
    from >= to || (0 <= from < |lines| && !IsStartLine(lines[from]) && NoStartIn(lines, from + 1, to))
  }

  /** No line in `from..to` stops the scan, checked one line at a time. */
  predicate NoStopIn(lines: seq<string>, from: int, to: int)
    decreases to - from
  {
    from >= to || (0 <= from < |lines| && !StopsAt(lines, from) && NoStopIn(lines, from + 1, to))
  }

  lemma {:induction false} NoStartInAll(lines: seq<string>, from: nat, to: nat)
    requires from <= to <= |lines| && NoStartIn(lines, from, to)
    decreases |lines| - from
    ensures forall j :: from <= j < to ==> !IsStartLine(lines[j])
  {
    if from < to {
      NoStartInAll(lines, from + 1, to);
    }
  }

  lemma {:induction false} NoStopInAll(lines: seq<string>, from: nat, to: nat)
    requires from <= to <= |lines| && NoStopIn(lines, from, to)
    decreases |lines| - from
    ensures forall j :: from <= j < to ==> !StopsAt(lines, j)
  {
    if from < to {
      assert !StopsAt(lines, from);
      NoStopInAll(lines, from + 1, to);
    }
  }

  /**
   * A window read off line by line: no start line before it, a start line
   * at its head, no stop inside it, and a stop (or the end of the text) at
   * its end.
   */
  predicate WindowFacts(lines: seq<string>, s: nat, e: nat) {
    s < e <= |lines|
    && NoStartIn(lines, 0, s) && IsStartLine(lines[s])
    && NoStopIn(lines, s + 1, e) && (e < |lines| ==> StopsAt(lines, e))
  }

  /** A non-blank line that is not conversational does not stop the scan. */
  lemma ClauseKeeps(lines: seq<string>, i: nat)
    requires i < |lines| && Strip(lines[i]) != [] && !IsConversational(Strip(lines[i]))
    ensures !StopsAt(lines, i)
  {
  }

  /** A blank line followed by a line that does not end a query does not stop the scan. */
  lemma BlankKeeps(lines: seq<string>, i: nat)
    requires i + 1 < |lines| && Strip(lines[i]) == [] && !EndsQueryAfterBlank(Strip(lines[i + 1]))
    ensures !StopsAt(lines, i)
  {
    EmptyNotConversational();
  }

  /** One line that does not stop the scan. */
  lemma KeepsOne(lines: seq<string>, i: nat)
    requires i < |lines| && !StopsAt(lines, i)
    ensures NoStopIn(lines, i, i + 1)
  {
  }

  /** Two lines in a row that do not stop the scan. */
  lemma KeepsTwo(lines: seq<string>, i: nat)
    requires i + 1 < |lines| && !StopsAt(lines, i) && !StopsAt(lines, i + 1)
    ensures NoStopIn(lines, i, i + 2)
  {
  }

  /** A conversational line stops the scan. */
  lemma ConversationalStops(lines: seq<string>, i: nat)
    requires i < |lines| && IsConversational(Strip(lines[i]))
    ensures StopsAt(lines, i)
  {
  }

  /** A blank line followed by a line that ends a query stops the scan. */
  lemma BlankStops(lines: seq<string>, i: nat)
    requires i + 1 < |lines| && Strip(lines[i]) == [] && EndsQueryAfterBlank(Strip(lines[i + 1]))
    ensures StopsAt(lines, i)
  {
  }

  /** A fact proved about a line carries over to the line at its index. */
  lemma StartLineAt(lines: seq<string>, k: nat, line: string)
    requires k < |lines| && lines[k] == line && IsStartLine(line)
    ensures IsStartLine(lines[k])
  {
  }

  /** The window read off line by line is the one the scanner keeps. */
  lemma WindowFromLines(lines: seq<string>, s: nat, e: nat)
    requires WindowFacts(lines, s, e)
    ensures IsFirstQueryWindow(lines, s, e)
  {
    NoStartInAll(lines, 0, s);
    NoStopInAll(lines, s + 1, e);
  }

  /** Lines after the one that decides the stop do not change the window. */
  lemma WindowIgnoresLaterLines(head: seq<string>, tail: seq<string>, s: nat, e: nat)
    requires IsFirstQueryWindow(head, s, e) && e + 1 < |head|
    ensures IsFirstQueryWindow(head + tail, s, e)
  {
    var lines := head + tail;
    forall j | 0 <= j < |head|
      ensures lines[j] == head[j]
    {
    }
    forall j | s < j <= e
      ensures StopsAt(lines, j) == StopsAt(head, j)
    {
    }
  }

  /** An indentation-only line is plain, strips to nothing and starts no query. */
  lemma BlankLine()
    ensures PlainLine(Indent) && Strip(Indent) == [] && !IsStartLine(Indent)
  {
    BlankIndent();
    StartKeywordHeads([]);
  }

  /** An empty line is plain, strips to nothing and starts no query. */
  lemma EmptyLine()
    ensures PlainLine([]) && Strip([]) == [] && !IsStartLine([])
  {
    StartKeywordHeads([]);
  }

  /** A blank line, once stripped, is not conversational. */
  lemma EmptyNotConversational()
    ensures !IsConversational([])
  {
    ConversationalHeads([]);
  }

  /** An indented line followed by an indentation-only line strips to the text of the first. */
  lemma StripIndentedThenBlank(s: string)
    requires s != [] && !IsSpace(s[0]) && !IsSpace(s[|s| - 1])
    ensures Strip(Indent + s + "\n" + Indent) == s
  {
    IndentIsBlank();
    assert Indent + s + "\n" + Indent == Indent + (s + ("\n" + Indent));
    TrimStartSpaces(Indent, s + ("\n" + Indent));
    LeadingSpacesUnique(s + ("\n" + Indent), 0);
    assert forall i :: 0 <= i < |"\n" + Indent| ==> IsSpace(("\n" + Indent)[i]);
    TrimEndSpaces(s, "\n" + Indent);
    Unpadded(s);
    LeadingSpacesUnique(s, 0);
  }

  /** Two unpadded lines followed by an empty line strip to the two lines. */
  lemma StripTwoLinesThenEmpty(a: string, b: string)
    requires a != [] && !IsSpace(a[0]) && b != [] && !IsSpace(b[|b| - 1])
    ensures Strip(a + "\n" + b + "\n") == a + "\n" + b
  {
    var t := a + "\n" + b;
    assert t + "\n" == a + "\n" + b + "\n";
    LeadingSpacesUnique(t + "\n", 0);
    TrimEndSpaces(t, "\n");
    StripUnchanged(t);
    LeadingSpacesUnique(t, 0);
  }

  /** An indented line is plain when its text is, and strips to its text. */
  lemma IndentedLine(s: string)
    requires PlainLine(s) && s != [] && !IsSpace(s[0]) && !IsSpace(s[|s| - 1])
    ensures PlainLine(Indent + s) && Strip(Indent + s) == s && TrimStart(Indent + s) == s
  {
    StripIndented(s);
  }

  /** A line opening with a start keyword, with or without indentation, starts a query. */
  lemma KeywordLine(s: string, k: nat)
    requires k < |StartKeywords| && StartKeywords[k] <= s
    requires |StartKeywords[k]| < |s| && s[|StartKeywords[k]|] == ' '
    ensures IsStartLine(s) && IsStartLine(Indent + s)
  {
    var kw := StartKeywords[k];
    StartKeywordIsWord(k);
    StartsWithCIChars(s, kw);
    assert MatchesKeyword(s, kw);
    LeadingSpacesUnique(s, 0);
    IndentIsBlank();
    TrimStartSpaces(Indent, s);
    MatchesAnyKeywordIff(s, StartKeywords);
  }

  /** Any whitespace in front of a line opening with a start keyword is dropped, and the line starts a query. */
  lemma PaddedKeywordLine(ws: string, s: string, k: nat)
    requires forall i :: 0 <= i < |ws| ==> IsSpace(ws[i])
    requires k < |StartKeywords| && StartKeywords[k] <= s
    requires |StartKeywords[k]| < |s| && s[|StartKeywords[k]|] == ' ' && !IsSpace(s[|s| - 1])
    ensures IsStartLine(ws + s) && Strip(ws + s) == s
  {
    KeywordLine(s, k);
    assert !IsSpace(s[0]);
    TrimStartSpaces(ws, s);
    StripUnchanged(s);
    LeadingSpacesUnique(s, 0);
  }

  /** A one-line text that starts a query is kept whole by the scanner. */
  lemma SingleLineQuery(q: string)
    requires '\n' !in q && IsStartLine(q)
    ensures IsSingleQuery(q)
  {
    SplitNoSeparator(q, '\n');
    assert IsFirstQueryWindow([q], 0, 1);
  }

  /** A one-line text that starts no query makes the scan fail. */
  lemma OneLineWithoutStart(q: string)
    requires '\n' !in q && !IsStartLine(q)
    ensures Extract(q).Err?
  {
    SplitNoSeparator(q, '\n');
    ExtractFailsIffNoStartLine(q);
  }

  /** Lines whose head is no start keyword start no query. */
  lemma ProseLine(s: string)
    requires s != [] && !IsSpace(s[0])
    requires !(Head2(s, "MA") || Head2(s, "WI") || Head2(s, "CA") || Head2(s, "RE") ||
               Head2(s, "CR") || Head2(s, "ME") || Head2(s, "UN"))
    ensures !IsStartLine(s)
  {
    LeadingSpacesUnique(s, 0);
    StartKeywordHeads(s);
  }

  /** A stripped line whose head is no continuation keyword and no comment ends a query after a blank line. */
  lemma EndingLine(s: string)
    requires s != [] && !IsSpace(s[0]) && s[0] != '/'
    requires !(Head2(s, "MA") || Head2(s, "WH") || Head2(s, "AN") || Head2(s, "OR") || Head2(s, "RE") ||
               Head2(s, "LI") || Head2(s, "WI") || Head2(s, "SK") || Head2(s, "UN") || Head2(s, "CA") ||
               Head2(s, "DE") || Head2(s, "SE") || Head2(s, "CR") || Head2(s, "ME") || Head2(s, "ON"))
    ensures EndsQueryAfterBlank(s)
  {
    LeadingSpacesUnique(s, 0);
    ContinuationKeywordHeads(s);
  }

  /** A line whose head is no conversational prefix and no digit is not conversational. */
  lemma ClauseLine(s: string)
    requires s != [] && !IsDigit(s[0])
    requires !(Head3(s, "NOT") || Head3(s, "THI") || Head3(s, "EXP") || Head3(s, "HER") || Head2(s, "IF") ||
               Head3(s, "THE") || Head3(s, "ANA") || Head3(s, "RES") || Head2(s, "OR") || Head3(s, "ALT") ||
               Head3(s, "YOU"))
    ensures !IsConversational(s)
  {
    ConversationalHeads(s);
  }

  /** The plain lines of a text put together. */
  lemma PlainLinesAppend(head: seq<string>, tail: seq<string>)
    requires PlainLines(head) && PlainLines(tail)
    ensures PlainLines(head + tail)
  {
    forall k | 0 <= k < |head + tail|
      ensures PlainLine((head + tail)[k])
    {
      if k >= |head| {
        assert (head + tail)[k] == tail[k - |head|];
      }
    }
  }

  /** Three lines joined by line feeds. */
  lemma JoinTwo(a: string, b: string)
    ensures Join([a, b], '\n') == a + "\n" + b
  {
    assert [a, b][1..] == [b];
    assert Join([b], '\n') == b;
  }

  lemma JoinThree(a: string, b: string, c: string)
    ensures Join([a, b, c], '\n') == a + "\n" + b + "\n" + c
  {
    assert [a, b, c][1..] == [b, c];
    assert [b, c][1..] == [c];
    assert Join([c], '\n') == c;
    assert Join([b, c], '\n') == b + "\n" + c;
  }

  /**
   * The cleaning of a text made of `head` and any plain lines after it, when
   * the window of `head` is decided before its last line.
   */
  lemma CleanWithAnyTail(head: seq<string>, tail: seq<string>, s: nat, e: nat)
    requires PlainLines(head) && PlainLines(tail)
    requires IsFirstQueryWindow(head, s, e) && e + 1 < |head|
    ensures CleanCypherResponse(Join(head + tail, '\n')) == EnsureSemicolon(Strip(Join(head[s..e], '\n')))
  {
    PlainLinesAppend(head, tail);
    WindowIgnoresLaterLines(head, tail, s, e);
    CleanByWindow(head + tail, s, e);
    SliceOfHead(head, tail, s, e);
  }

  lemma SliceOfHead(head: seq<string>, tail: seq<string>, s: nat, e: nat)
    requires s <= e <= |head|
    ensures (head + tail)[s..e] == head[s..e]
  {
  }
}
