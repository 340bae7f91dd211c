/**
 * `_extract_cypher_brutal` (codebase_rag/services/llm.py): the line scanner
 * that cuts one Cypher statement out of free text. `Extract` is its
 * specification as a function; `ExtractCypherBrutal` is the two-loop scan of
 * the source, proved equal to it.
 */
module Scanner {
  import opened Wrappers
  import opened Strings
  import opened Patterns

  /** The `ValueError("No Cypher query found")` raised when no line starts a query. */
  datatype ScanError = NoCypherQueryFound

  /**
   * The blank-line lookahead: the (stripped) line after a blank line ends the
   * query when it is not blank, does not continue the statement and is not
   * a comment.
   */
  predicate EndsQueryAfterBlank(next: string) {
    next != [] && !IsContinuationLine(next) && !IsComment(next)
  }

  /** The second loop stops at line `i` (which is then excluded from the query). */
  predicate StopsAt(lines: seq<string>, i: nat)
    requires i < |lines|
  {
    var line := Strip(lines[i]);
    IsConversational(line) || (line == [] && i + 1 < |lines| && EndsQueryAfterBlank(Strip(lines[i + 1])))
  }

  /** The index of the first line at or after `from` that matches the start pattern. */
  function FirstStart(lines: seq<string>, from: nat): (r: Option<nat>)
    requires from <= |lines|
    ensures r.Some? ==> from <= r.value < |lines| && IsStartLine(lines[r.value])
    ensures r.Some? ==> forall j :: from <= j < r.value ==> !IsStartLine(lines[j])
    ensures r.None? ==> forall j :: from <= j < |lines| ==> !IsStartLine(lines[j])
    decreases |lines| - from
  {
    if from == |lines| then None
    else if IsStartLine(lines[from]) then Some(from)
    else FirstStart(lines, from + 1)
  }

  /** The index of the first stopping line at or after `from`, or `|lines|` when there is none. */
  function FirstStop(lines: seq<string>, from: nat): (r: nat)
    requires from <= |lines|
    ensures from <= r <= |lines|
    ensures r < |lines| ==> StopsAt(lines, r)
    ensures forall j :: from <= j < r ==> !StopsAt(lines, j)
    decreases |lines| - from
  {
    if from == |lines| then |lines|
    else if StopsAt(lines, from) then from
    else FirstStop(lines, from + 1)
  }

  /**
   * What the scanner returns: the lines from the first query start up to the
   * first stopping line after it, joined by line feeds and stripped.
   */
  function Extract(text: string): Result<string, ScanError> {
    var lines := Split(text, '\n');
    match FirstStart(lines, 0)
    case None => Err(NoCypherQueryFound)
    case Some(start) => Ok(Strip(Join(lines[start..FirstStop(lines, start + 1)], '\n')))
  }

  /**
   * `_extract_cypher_brutal` as written: a loop that finds the first start
   * line, the `ValueError` when there is none, a loop that finds the line
   * ending the query, then join and strip.
   */
  method ExtractCypherBrutal(text: string) returns (r: Result<string, ScanError>)
    ensures r == Extract(text)
  {
    var lines := Split(text, '\n');
    var startIdx: Option<nat> := None;
    for i := 0 to |lines|
      invariant FirstStart(lines, 0) == FirstStart(lines, i)
    {
      if IsStartLine(lines[i]) {
        if !IsNumberedItem(TrimStart(lines[i])) {
          startIdx := Some(i);
          break;
        }
        // The numbered-list guard cannot reject a line that matched the start pattern.
        NumberedGuardVacuous(lines[i]);
        assert false;
      }
    }
    if startIdx.None? {
      return Err(NoCypherQueryFound);
    }
    var start := startIdx.value;
    assert FirstStart(lines, 0) == Some(start);

    var endIdx := |lines|;
    for i := start + 1 to |lines|
      invariant FirstStop(lines, start + 1) == FirstStop(lines, i)
    {
      var line := Strip(lines[i]);
      if IsConversational(line) {
        endIdx := i;
        break;
      }
      if line == [] && i + 1 < |lines| {
        var nextLine := Strip(lines[i + 1]);
        if nextLine != [] && !IsContinuationLine(nextLine) {
          if !("//" <= nextLine) && !("/*" <= nextLine) {
            endIdx := i;
            break;
          }
        }
      }
    }
    assert endIdx == FirstStop(lines, start + 1);

    var query := Join(lines[start..endIdx], '\n');
    r := Ok(Strip(query));
    ExtractFromStart(text, start);
  }

  /** The result of the scan once the first start line is known. */
  lemma ExtractFromStart(text: string, start: nat)
    requires FirstStart(Split(text, '\n'), 0) == Some(start)
    ensures var lines := Split(text, '\n');
            Extract(text) == Ok(Strip(Join(lines[start..FirstStop(lines, start + 1)], '\n')))
  {
  }

  /**
   * The window `[s, e)` of `lines` that the scanner keeps, described without
   * the search: `s` is the first line matching the start pattern, no line
   * strictly between `s` and `e` stops the scan, and `e` is either the end
   * of the text or a line that stops it.
   */
  predicate IsFirstQueryWindow(lines: seq<string>, s: nat, e: nat) {
    s < e <= |lines|
    && IsStartLine(lines[s]) && (forall j :: 0 <= j < s ==> !IsStartLine(lines[j]))
    && (forall j :: s < j < e ==> !StopsAt(lines, j))
    && (e < |lines| ==> StopsAt(lines, e))
  }

  /** No line matches the start pattern. */
  predicate NoStartLine(lines: seq<string>) {
    forall i :: 0 <= i < |lines| ==> !IsStartLine(lines[i])
  }

  /** The scanner raises exactly when no line of the text matches the start pattern. */
  lemma ExtractFailsIffNoStartLine(text: string)
    ensures Extract(text).Err? <==> NoStartLine(Split(text, '\n'))
  {
    var lines := Split(text, '\n');
    match FirstStart(lines, 0)
    case None =>
      assert Extract(text) == Err(NoCypherQueryFound);
    case Some(s) =>
      assert IsStartLine(lines[s]);
      assert Extract(text).Ok?;
  }

  /**
   * First match wins: whatever window satisfies the description above is the
   * one the scanner returns, joined and stripped.
   */
  lemma ExtractIsFirstWindow(text: string, s: nat, e: nat)
    requires IsFirstQueryWindow(Split(text, '\n'), s, e)
    ensures Extract(text) == Ok(Strip(Join(Split(text, '\n')[s..e], '\n')))
  {
    var lines := Split(text, '\n');
    FirstStartIs(lines, s);
    FirstStopIs(lines, s + 1, e);
  }

  /** The first start line is the one with no start line before it. */
  lemma FirstStartIs(lines: seq<string>, s: nat)
    requires s < |lines| && IsStartLine(lines[s]) && forall j :: 0 <= j < s ==> !IsStartLine(lines[j])
    ensures FirstStart(lines, 0) == Some(s)
  {
    var first := FirstStart(lines, 0);
    assert first.Some? && first.value == s;
  }

  /** The first stopping line is the one with no stopping line between `from` and it. */
  lemma FirstStopIs(lines: seq<string>, from: nat, e: nat)
    requires from <= e <= |lines| && forall j :: from <= j < e ==> !StopsAt(lines, j)
    requires e < |lines| ==> StopsAt(lines, e)
    ensures FirstStop(lines, from) == e
  {
  }

  /** Conversely, every successful scan returns the stripped join of such a window. */
  lemma ExtractOkWindow(text: string)
    requires Extract(text).Ok?
    ensures exists s: nat, e: nat ::
              IsFirstQueryWindow(Split(text, '\n'), s, e) &&
              Extract(text).value == Strip(Join(Split(text, '\n')[s..e], '\n'))
  {
    var lines := Split(text, '\n');
    var s := FirstStart(lines, 0).value;
    var e := FirstStop(lines, s + 1);
    assert IsFirstQueryWindow(lines, s, e);
    assert Extract(text).value == Strip(Join(lines[s..e], '\n'));
  }

  /**
   * No line kept after the start line opens, once stripped, with a
   * conversational prefix or a numbered item: the scan stops at the first one.
   */
  lemma WindowKeepsNoConversationalLine(lines: seq<string>, s: nat, e: nat)
    requires IsFirstQueryWindow(lines, s, e)
    ensures forall j :: s < j < e ==> !IsConversational(Strip(lines[j]))
  {
    forall j | s < j < e
      ensures !IsConversational(Strip(lines[j]))
    {
      KeptLineNotConversational(lines, j);
    }
  }

  lemma KeptLineNotConversational(lines: seq<string>, j: nat)
    requires j < |lines| && !StopsAt(lines, j)
    ensures !IsConversational(Strip(lines[j]))
  {
  }

  /**
   * A successful scan is non-empty, has no whitespace at either end and
   * itself begins with a start keyword followed by a word boundary.
   */
  lemma ExtractStartsWithKeyword(text: string)
    ensures Extract(text).Ok? ==> IsTrimmedKeywordText(Extract(text).value)
  {
    var lines := Split(text, '\n');
    if FirstStart(lines, 0).Some? {
      var s := FirstStart(lines, 0).value;
      StripJoinKeepsKeyword(lines[s..FirstStop(lines, s + 1)]);
    }
  }
}
