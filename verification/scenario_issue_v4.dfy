/** reproduce_issue_v4.py: a query followed by an explanation with a numbered list. */
module IssueV4Scenario {
  import opened Strings
  import opened Patterns
  import opened Scanner
  import opened Normalizer
  import opened Fence
  import opened Cleaning
  import opened ScenarioLines

  // ---------------------------------------------------------------------
  // reproduce_issue_v4.py: the input up to the sentence after the query

  const IssueV4Head: seq<string> :=
    ["MATCH (f:File)", "WHERE f.name = 'definitions.py'", "RETURN f.path AS file_path", "",
     "The key modifications I made:"]

  lemma IssueV4Plain0()
    ensures PlainLine("MATCH (f:File)")
  {
  }

  lemma IssueV4Starts0()
    ensures IsStartLine("MATCH (f:File)")
  {
    KeywordLine("MATCH (f:File)", 0);
  }

  lemma IssueV4Plain1()
    ensures PlainLine("WHERE f.name = 'definitions.py'")
  {
    var s := "WHERE f.name = 'definitions.py'";
    forall i | 0 <= i < |s|
      ensures s[i] != '\n' && s[i] != '`'
    {
    }
  }

  lemma IssueV4Strip1()
    ensures Strip("WHERE f.name = 'definitions.py'") == "WHERE f.name = 'definitions.py'"
  {
    Unpadded("WHERE f.name = 'definitions.py'");
  }

  lemma IssueV4Clause1()
    ensures !IsConversational("WHERE f.name = 'definitions.py'")
  {
    ClauseLine("WHERE f.name = 'definitions.py'");
  }

  lemma IssueV4Plain2()
    ensures PlainLine("RETURN f.path AS file_path")
  {
  }

  lemma IssueV4Strip2()
    ensures Strip("RETURN f.path AS file_path") == "RETURN f.path AS file_path"
  {
    Unpadded("RETURN f.path AS file_path");
  }

  lemma IssueV4Clause2()
    ensures !IsConversational("RETURN f.path AS file_path")
  {
    ClauseLine("RETURN f.path AS file_path");
  }

  lemma IssueV4Plain4()
    ensures PlainLine("The key modifications I made:")
  {
  }

  lemma IssueV4EndingLine()
    ensures Strip("The key modifications I made:") == "The key modifications I made:"
    ensures EndsQueryAfterBlank("The key modifications I made:")
  {
    Unpadded("The key modifications I made:");
    EndingLine("The key modifications I made:");
  }

  lemma IssueV4PlainLines()
    ensures PlainLines(IssueV4Head)
  {
    IssueV4Plain0();
    IssueV4Plain1();
    IssueV4Plain2();
    EmptyLine();
    IssueV4Plain4();
    assert PlainFrom(IssueV4Head, 3);
    assert PlainFrom(IssueV4Head, 0);
    PlainFromAll(IssueV4Head, 0);
  }

  /**
   * The shape of the input: the start line, two clause lines, and a blank
   * line before a line that ends a query.
   */
  lemma IssueV4Layout(l0: string, l1: string, l2: string, blank: string, l4: string)
    requires IsStartLine(l0)
    requires Strip(l1) != [] && !IsConversational(Strip(l1)) && Strip(l2) != [] && !IsConversational(Strip(l2))
    requires Strip(blank) == [] && EndsQueryAfterBlank(Strip(l4))
    ensures WindowFacts([l0, l1, l2, blank, l4], 0, 3)
  {
    IssueV4Opening(l0, l1, l2, blank, l4);
    IssueV4Closing(l0, l1, l2, blank, l4);
  }

  lemma IssueV4Opening(l0: string, l1: string, l2: string, blank: string, l4: string)
    requires IsStartLine(l0)
    ensures var lines := [l0, l1, l2, blank, l4];
            NoStartIn(lines, 0, 0) && IsStartLine(lines[0])
  {
  }

  lemma IssueV4Closing(l0: string, l1: string, l2: string, blank: string, l4: string)
    requires Strip(l1) != [] && !IsConversational(Strip(l1)) && Strip(l2) != [] && !IsConversational(Strip(l2))
    requires Strip(blank) == [] && EndsQueryAfterBlank(Strip(l4))
    ensures var lines := [l0, l1, l2, blank, l4];
            NoStopIn(lines, 1, 3) && StopsAt(lines, 3)
  {
    IssueV4ClosingKeeps(l0, l1, l2, blank, l4);
    IssueV4ClosingStops(l0, l1, l2, blank, l4);
  }

  lemma IssueV4ClosingKeeps(l0: string, l1: string, l2: string, blank: string, l4: string)
    requires Strip(l1) != [] && !IsConversational(Strip(l1)) && Strip(l2) != [] && !IsConversational(Strip(l2))
    ensures NoStopIn([l0, l1, l2, blank, l4], 1, 3)
  {
    IssueV4LayoutKeeps([l0, l1, l2, blank, l4]);
  }

  lemma IssueV4ClosingStops(l0: string, l1: string, l2: string, blank: string, l4: string)
    requires Strip(blank) == [] && EndsQueryAfterBlank(Strip(l4))
    ensures StopsAt([l0, l1, l2, blank, l4], 3)
  {
    BlankStops([l0, l1, l2, blank, l4], 3);
  }

  lemma IssueV4LayoutKeeps(lines: seq<string>)
    requires |lines| == 5
    requires Strip(lines[1]) != [] && !IsConversational(Strip(lines[1]))
    requires Strip(lines[2]) != [] && !IsConversational(Strip(lines[2]))
    ensures NoStopIn(lines, 1, 3)
  {
    ClauseKeeps(lines, 1);
    ClauseKeeps(lines, 2);
    KeepsTwo(lines, 1);
  }

  lemma IssueV4Facts()
    ensures WindowFacts(IssueV4Head, 0, 3)
  {
    IssueV4Starts0();
    IssueV4Strip1();
    IssueV4Clause1();
    IssueV4Strip2();
    IssueV4Clause2();
    EmptyLine();
    IssueV4EndingLine();
    IssueV4Layout("MATCH (f:File)", "WHERE f.name = 'definitions.py'", "RETURN f.path AS file_path", "",
                  "The key modifications I made:");
  }

  /** The query is the three clause lines; the empty line before the explanation ends it. */
  lemma IssueV4Window()
    ensures IsFirstQueryWindow(IssueV4Head, 0, 3)
  {
    IssueV4Facts();
    WindowFromLines(IssueV4Head, 0, 3);
  }

  lemma IssueV4Body()
    ensures EnsureSemicolon(Strip(Join(IssueV4Head[0..3], '\n')))
         == "MATCH (f:File)" + "\n" + "WHERE f.name = 'definitions.py'" + "\n" + "RETURN f.path AS file_path" + ";"
  {
    var a := "MATCH (f:File)";
    var b := "WHERE f.name = 'definitions.py'";
    var c := "RETURN f.path AS file_path";
    assert IssueV4Head[0..3] == [a, b, c];
    JoinThree(a, b, c);
    StripUnchanged(a + "\n" + b + "\n" + c);
    Terminate(a + "\n" + b + "\n" + c);
  }

  /** The explanation and its numbered list are cut, whatever lines follow its first line. */
  lemma CleanIssueV4(tail: seq<string>)
    requires PlainLines(tail)
    ensures CleanCypherResponse(Join(IssueV4Head + tail, '\n'))
         == "MATCH (f:File)" + "\n" + "WHERE f.name = 'definitions.py'" + "\n" + "RETURN f.path AS file_path" + ";"
  {
    IssueV4PlainLines();
    IssueV4Window();
    CleanWithAnyTail(IssueV4Head, tail, 0, 3);
    IssueV4Body();
  }
}
