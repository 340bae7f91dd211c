/** test_issue_v2_reproduction of test_llm_cleaning.py: a stray `cypher` line, and a second query after the explanation. */
module IssueV2Scenario {
  import opened Strings
  import opened Patterns
  import opened Scanner
  import opened Normalizer
  import opened Fence
  import opened Cleaning
  import opened ScenarioLines

  // ---------------------------------------------------------------------
  // test_issue_v2_reproduction: the input up to the sentence after the query

  const IssueV2Head: seq<string> :=
    ["Here's the Cypher query you requested:", "", "cypher", "MATCH (c:Class {name: 'ObservationEngine'})",
     "RETURN c.path", "", "", "This query will:"]

  lemma IssueV2Plain0()
    ensures PlainLine("Here's the Cypher query you requested:")
  {
    var s := "Here's the Cypher query you requested:";
    forall i | 0 <= i < |s|
      ensures s[i] != '\n' && s[i] != '`'
    {
    }
  }

  lemma IssueV2NotStart0()
    ensures !IsStartLine("Here's the Cypher query you requested:")
  {
    ProseLine("Here's the Cypher query you requested:");
  }

  lemma IssueV2Plain2()
    ensures PlainLine("cypher")
  {
  }

  lemma IssueV2NotStart2()
    ensures !IsStartLine("cypher")
  {
    ProseLine("cypher");
  }

  lemma IssueV2Plain3()
    ensures PlainLine("MATCH (c:Class {name: 'ObservationEngine'})")
  {
    var s := "MATCH (c:Class {name: 'ObservationEngine'})";
    forall i | 0 <= i < |s|
      ensures s[i] != '\n' && s[i] != '`'
    {
    }
  }

  lemma IssueV2Starts3()
    ensures IsStartLine("MATCH (c:Class {name: 'ObservationEngine'})")
  {
    KeywordLine("MATCH (c:Class {name: 'ObservationEngine'})", 0);
  }

  lemma IssueV2Plain4()
    ensures PlainLine("RETURN c.path")
  {
  }

  lemma IssueV2Strip4()
    ensures Strip("RETURN c.path") == "RETURN c.path"
  {
    Unpadded("RETURN c.path");
  }

  lemma IssueV2Clause4()
    ensures !IsConversational("RETURN c.path")
  {
    ClauseLine("RETURN c.path");
  }

  lemma IssueV2Plain7()
    ensures PlainLine("This query will:")
  {
  }

  lemma IssueV2Strip7()
    ensures Strip("This query will:") == "This query will:"
  {
    Unpadded("This query will:");
  }

  lemma IssueV2Ending7()
    ensures EndsQueryAfterBlank("This query will:")
  {
    EndingLine("This query will:");
  }

  lemma IssueV2PlainLines()
    ensures PlainLines(IssueV2Head)
  {
    IssueV2Plain0();
    EmptyLine();
    IssueV2Plain2();
    IssueV2Plain3();
    IssueV2Plain4();
    IssueV2Plain7();
    assert PlainFrom(IssueV2Head, 5);
    assert PlainFrom(IssueV2Head, 2);
    assert PlainFrom(IssueV2Head, 0);
    PlainFromAll(IssueV2Head, 0);
  }

  /**
   * The shape of the input: two lines that start nothing around an empty
   * one, the start line, a clause line, an empty line before another one,
   * and that one before a line that ends a query.
   */
  lemma IssueV2Layout(l0: string, empty: string, l2: string, l3: string, l4: string, l7: string)
    requires !IsStartLine(l0) && !IsStartLine(empty) && !IsStartLine(l2) && IsStartLine(l3)
    requires Strip(l4) != [] && !IsConversational(Strip(l4))
    requires Strip(empty) == [] && !EndsQueryAfterBlank(Strip(empty)) && EndsQueryAfterBlank(Strip(l7))
    ensures WindowFacts([l0, empty, l2, l3, l4, empty, empty, l7], 3, 6)
  {
    IssueV2Opening(l0, empty, l2, l3, l4, l7);
    IssueV2Closing(l0, empty, l2, l3, l4, l7);
  }

  lemma IssueV2Opening(l0: string, empty: string, l2: string, l3: string, l4: string, l7: string)
    requires !IsStartLine(l0) && !IsStartLine(empty) && !IsStartLine(l2) && IsStartLine(l3)
    ensures var lines := [l0, empty, l2, l3, l4, empty, empty, l7];
            NoStartIn(lines, 0, 3) && IsStartLine(lines[3])
  {
    IssueV2LayoutStart([l0, empty, l2, l3, l4, empty, empty, l7]);
  }

  lemma IssueV2Closing(l0: string, empty: string, l2: string, l3: string, l4: string, l7: string)
    requires Strip(l4) != [] && !IsConversational(Strip(l4))
    requires Strip(empty) == [] && !EndsQueryAfterBlank(Strip(empty)) && EndsQueryAfterBlank(Strip(l7))
    ensures var lines := [l0, empty, l2, l3, l4, empty, empty, l7];
            NoStopIn(lines, 4, 6) && StopsAt(lines, 6)
  {
    IssueV2LayoutStop([l0, empty, l2, l3, l4, empty, empty, l7]);
  }

  lemma IssueV2LayoutStart(lines: seq<string>)
    requires |lines| == 8 && !IsStartLine(lines[0]) && !IsStartLine(lines[1]) && !IsStartLine(lines[2])
    requires IsStartLine(lines[3])
    ensures NoStartIn(lines, 0, 3) && IsStartLine(lines[3])
  {
  }

  lemma IssueV2LayoutStop(lines: seq<string>)
    requires |lines| == 8 && Strip(lines[4]) != [] && !IsConversational(Strip(lines[4]))
    requires Strip(lines[5]) == [] && !EndsQueryAfterBlank(Strip(lines[6]))
    requires Strip(lines[6]) == [] && EndsQueryAfterBlank(Strip(lines[7]))
    ensures NoStopIn(lines, 4, 6) && StopsAt(lines, 6)
  {
    IssueV2LayoutKeeps(lines);
    BlankStops(lines, 6);
  }

  lemma IssueV2LayoutKeeps(lines: seq<string>)
    requires |lines| == 8 && Strip(lines[4]) != [] && !IsConversational(Strip(lines[4]))
    requires Strip(lines[5]) == [] && !EndsQueryAfterBlank(Strip(lines[6]))
    ensures NoStopIn(lines, 4, 6)
  {
    ClauseKeeps(lines, 4);
    BlankKeeps(lines, 5);
    KeepsTwo(lines, 4);
  }

  lemma IssueV2Facts()
    ensures WindowFacts(IssueV2Head, 3, 6)
  {
    IssueV2NotStart0();
    EmptyLine();
    IssueV2NotStart2();
    IssueV2Starts3();
    IssueV2Strip4();
    IssueV2Clause4();
    IssueV2Strip7();
    IssueV2Ending7();
    IssueV2Layout("Here's the Cypher query you requested:", "", "cypher", "MATCH (c:Class {name: 'ObservationEngine'})",
                  "RETURN c.path", "This query will:");
  }

  /** The query runs from the `MATCH` line after the stray `cypher` tag up to the second empty line. */
  lemma IssueV2Window()
    ensures IsFirstQueryWindow(IssueV2Head, 3, 6)
  {
    IssueV2Facts();
    WindowFromLines(IssueV2Head, 3, 6);
  }

  lemma IssueV2Body()
    ensures EnsureSemicolon(Strip(Join(IssueV2Head[3..6], '\n')))
         == "MATCH (c:Class {name: 'ObservationEngine'})" + "\n" + "RETURN c.path" + ";"
  {
    var a := "MATCH (c:Class {name: 'ObservationEngine'})";
    var b := "RETURN c.path";
    assert IssueV2Head[3..6] == [a, b, ""];
    JoinThree(a, b, "");
    assert a + "\n" + b + "\n" + "" == a + "\n" + b + "\n";
    StripTwoLinesThenEmpty(a, b);
    Terminate(a + "\n" + b);
  }

  /**
   * The greeting, the stray `cypher` line and everything from the
   * explanation on are cut, whatever lines follow the explanation.
   */
  lemma CleanIssueV2(tail: seq<string>)
    requires PlainLines(tail)
    ensures CleanCypherResponse(Join(IssueV2Head + tail, '\n'))
         == "MATCH (c:Class {name: 'ObservationEngine'})" + "\n" + "RETURN c.path" + ";"
  {
    IssueV2PlainLines();
    IssueV2Window();
    CleanWithAnyTail(IssueV2Head, tail, 3, 6);
    IssueV2Body();
  }
}
