/** test_multiple_queries_first_one_wins of test_llm_cleaning.py: two queries, of which the first is kept. */
module MultipleScenario {
  import opened Strings
  import opened Patterns
  import opened Scanner
  import opened Normalizer
  import opened Fence
  import opened Cleaning
  import opened ScenarioLines

  // ---------------------------------------------------------------------
  // test_multiple_queries_first_one_wins

  const MultipleLines: seq<string> :=
    ["Here is the exact match:", Indent + "MATCH (n {name: 'foo'}) RETURN n", Indent, Indent + "Or fuzzy match:",
     Indent + "MATCH (n) WHERE n.name =~ 'foo.*' RETURN n"]

  lemma MultiplePlain0()
    ensures PlainLine("Here is the exact match:")
  {
  }

  lemma MultipleBare1()
    ensures PlainLine("MATCH (n {name: 'foo'}) RETURN n")
  {
    var s := "MATCH (n {name: 'foo'}) RETURN n";
    forall i | 0 <= i < |s|
      ensures s[i] != '\n' && s[i] != '`'
    {
    }
  }

  lemma MultiplePlain1()
    ensures PlainLine(Indent + "MATCH (n {name: 'foo'}) RETURN n")
  {
    MultipleBare1();
    IndentedLine("MATCH (n {name: 'foo'}) RETURN n");
  }

  lemma MultipleStarts1()
    ensures IsStartLine(Indent + "MATCH (n {name: 'foo'}) RETURN n")
  {
    KeywordLine("MATCH (n {name: 'foo'}) RETURN n", 0);
  }

  lemma MultiplePlain3()
    ensures PlainLine(Indent + "Or fuzzy match:")
  {
    assert PlainLine("Or fuzzy match:");
    IndentedLine("Or fuzzy match:");
  }

  /** `Or` followed by a blank is the `OR` continuation keyword. */
  lemma MultipleContinues3()
    ensures IsContinuationLine("Or fuzzy match:")
  {
    Unpadded("Or fuzzy match:");
    assert MatchesKeyword("Or fuzzy match:", ContinuationKeywords[3]) by {
      assert ContinuationKeywords[3] == "OR";
      assert StartsWithCI("Or fuzzy match:", "OR") by {
        StartsWithCIChars("Or fuzzy match:", "OR");
      }
    }
    MatchesAnyKeywordIff("Or fuzzy match:", ContinuationKeywords);
  }

  /** ... and it opens with the conversational prefix `Or`. */
  lemma MultipleConversational3()
    ensures IsConversational("Or fuzzy match:")
  {
    assert StartsWithCI("Or fuzzy match:", ConversationalPrefixes[8]) by {
      assert ConversationalPrefixes[8] == "Or";
      StartsWithCIChars("Or fuzzy match:", "Or");
    }
    StartsWithAnyCIIff("Or fuzzy match:", ConversationalPrefixes);
  }

  lemma MultipleBare4()
    ensures PlainLine("MATCH (n) WHERE n.name =~ 'foo.*' RETURN n")
  {
    var s := "MATCH (n) WHERE n.name =~ 'foo.*' RETURN n";
    forall i | 0 <= i < |s|
      ensures s[i] != '\n' && s[i] != '`'
    {
    }
  }

  lemma MultiplePlain4()
    ensures PlainLine(Indent + "MATCH (n) WHERE n.name =~ 'foo.*' RETURN n")
  {
    MultipleBare4();
    IndentedLine("MATCH (n) WHERE n.name =~ 'foo.*' RETURN n");
  }

  lemma MultiplePlainLines()
    ensures PlainLines(MultipleLines)
  {
    MultiplePlain0();
    MultiplePlain1();
    BlankLine();
    MultiplePlain3();
    MultiplePlain4();
    assert PlainFrom(MultipleLines, 3);
    assert PlainFrom(MultipleLines, 0);
    PlainFromAll(MultipleLines, 0);
  }

  /** A line that continues the statement does not end it after a blank line. */
  lemma MultipleNotEnding3()
    ensures !EndsQueryAfterBlank("Or fuzzy match:")
  {
    MultipleContinues3();
  }

  /**
   * The shape of the input: a line that starts nothing, the start line, a
   * blank line before a line that does not end the query there but is
   * conversational, and one more line.
   */
  lemma MultipleLayout(l0: string, l1: string, blank: string, l3: string, l4: string)
    requires !IsStartLine(l0) && IsStartLine(l1)
    requires Strip(blank) == [] && !EndsQueryAfterBlank(Strip(l3)) && IsConversational(Strip(l3))
    ensures WindowFacts([l0, l1, blank, l3, l4], 1, 3)
  {
    var lines := [l0, l1, blank, l3, l4];
    MultipleLayoutKeeps(lines);
    MultipleLayoutStops(lines);
  }

  lemma MultipleLayoutKeeps(lines: seq<string>)
    requires |lines| == 5 && Strip(lines[2]) == [] && !EndsQueryAfterBlank(Strip(lines[3]))
    ensures NoStopIn(lines, 2, 3)
  {
    BlankKeeps(lines, 2);
    KeepsOne(lines, 2);
  }

  lemma MultipleLayoutStops(lines: seq<string>)
    requires |lines| == 5 && IsConversational(Strip(lines[3]))
    ensures StopsAt(lines, 3)
  {
    ConversationalStops(lines, 3);
  }

  /** The blank line does not end the query, since the line after it reads as an `OR` clause. */
  lemma MultipleFacts()
    ensures WindowFacts(MultipleLines, 1, 3)
  {
    ProseLine("Here is the exact match:");
    MultipleStarts1();
    BlankLine();
    StripIndented("Or fuzzy match:");
    MultipleNotEnding3();
    MultipleConversational3();
    MultipleLayout("Here is the exact match:", Indent + "MATCH (n {name: 'foo'}) RETURN n", Indent,
                   Indent + "Or fuzzy match:", Indent + "MATCH (n) WHERE n.name =~ 'foo.*' RETURN n");
  }

  /** The query runs from the first `MATCH` line up to the conversational `Or` line. */
  lemma MultipleWindow()
    ensures IsFirstQueryWindow(MultipleLines, 1, 3)
  {
    MultipleFacts();
    WindowFromLines(MultipleLines, 1, 3);
  }

  lemma MultipleBody()
    ensures EnsureSemicolon(Strip(Join(MultipleLines[1..3], '\n'))) == "MATCH (n {name: 'foo'}) RETURN n;"
  {
    var q := "MATCH (n {name: 'foo'}) RETURN n";
    assert MultipleLines[1..3] == [Indent + q, Indent];
    assert Join(MultipleLines[1..3], '\n') == Indent + q + "\n" + Indent;
    StripIndentedThenBlank(q);
    Terminate(q);
  }

  /** Only the first of two queries is kept, and the text between them is cut. */
  lemma CleanMultipleQueries()
    ensures CleanCypherResponse(Join(MultipleLines, '\n')) == "MATCH (n {name: 'foo'}) RETURN n;"
  {
    MultiplePlainLines();
    MultipleWindow();
    CleanByWindow(MultipleLines, 1, 3);
    MultipleBody();
  }
}
