/** test_preamble_garbage of test_llm_cleaning.py: a greeting before an indented query and a sentence after it. */
module PreambleScenario {
  import opened Strings
  import opened Patterns
  import opened Scanner
  import opened Normalizer
  import opened Fence
  import opened Cleaning
  import opened ScenarioLines

  // ---------------------------------------------------------------------
  // test_preamble_garbage

  const PreambleLines: seq<string> :=
    ["Sure, I can help with that.", Indent, Indent + "MATCH (f:File)", Indent + "RETURN f.path", Indent,
     Indent + "This will return all file paths."]

  lemma PreamblePlain0()
    ensures PlainLine("Sure, I can help with that.")
  {
  }

  lemma PreambleNotStart0()
    ensures !IsStartLine("Sure, I can help with that.")
  {
    ProseLine("Sure, I can help with that.");
  }

  lemma PreamblePlain2()
    ensures PlainLine(Indent + "MATCH (f:File)")
  {
    assert PlainLine("MATCH (f:File)");
    IndentedLine("MATCH (f:File)");
  }

  lemma PreambleStarts2()
    ensures IsStartLine(Indent + "MATCH (f:File)")
  {
    KeywordLine("MATCH (f:File)", 0);
  }

  lemma PreamblePlain3()
    ensures PlainLine(Indent + "RETURN f.path")
  {
    assert PlainLine("RETURN f.path");
    IndentedLine("RETURN f.path");
  }

  lemma PreamblePlain5()
    ensures PlainLine(Indent + "This will return all file paths.")
  {
    var s := "This will return all file paths.";
    forall i | 0 <= i < |s|
      ensures s[i] != '\n' && s[i] != '`'
    {
    }
    IndentedLine("This will return all file paths.");
  }

  lemma PreamblePlainLines()
    ensures PlainLines(PreambleLines)
  {
    BlankLine();
    PreamblePlain0();
    PreamblePlain2();
    PreamblePlain3();
    PreamblePlain5();
    assert PlainFrom(PreambleLines, 4);
    assert PlainFrom(PreambleLines, 2);
    assert PlainFrom(PreambleLines, 0);
    PlainFromAll(PreambleLines, 0);
  }

  /**
   * The shape of the input: a line and a blank line that start nothing, the
   * start line, a clause line, and a blank line before a line that ends a
   * query.
   */
  lemma PreambleLayout(l0: string, blank: string, l2: string, l3: string, l5: string)
    requires !IsStartLine(l0) && !IsStartLine(blank) && IsStartLine(l2)
    requires Strip(l3) != [] && !IsConversational(Strip(l3))
    requires Strip(blank) == [] && EndsQueryAfterBlank(Strip(l5))
    ensures WindowFacts([l0, blank, l2, l3, blank, l5], 2, 4)
  {
    PreambleOpening(l0, blank, l2, l3, l5);
    PreambleClosing(l0, blank, l2, l3, l5);
  }

  lemma PreambleOpening(l0: string, blank: string, l2: string, l3: string, l5: string)
    requires !IsStartLine(l0) && !IsStartLine(blank) && IsStartLine(l2)
    ensures var lines := [l0, blank, l2, l3, blank, l5];
            NoStartIn(lines, 0, 2) && IsStartLine(lines[2])
  {
    PreambleLayoutStart([l0, blank, l2, l3, blank, l5]);
  }

  lemma PreambleClosing(l0: string, blank: string, l2: string, l3: string, l5: string)
    requires Strip(l3) != [] && !IsConversational(Strip(l3))
    requires Strip(blank) == [] && EndsQueryAfterBlank(Strip(l5))
    ensures var lines := [l0, blank, l2, l3, blank, l5];
            NoStopIn(lines, 3, 4) && StopsAt(lines, 4)
  {
    PreambleLayoutStop([l0, blank, l2, l3, blank, l5]);
  }

  lemma PreambleLayoutStart(lines: seq<string>)
    requires |lines| == 6 && !IsStartLine(lines[0]) && !IsStartLine(lines[1]) && IsStartLine(lines[2])
    ensures NoStartIn(lines, 0, 2) && IsStartLine(lines[2])
  {
  }

  lemma PreambleLayoutStop(lines: seq<string>)
    requires |lines| == 6 && Strip(lines[3]) != [] && !IsConversational(Strip(lines[3]))
    requires Strip(lines[4]) == [] && EndsQueryAfterBlank(Strip(lines[5]))
    ensures NoStopIn(lines, 3, 4) && StopsAt(lines, 4)
  {
    PreambleLayoutKeeps(lines);
    BlankStops(lines, 4);
  }

  lemma PreambleLayoutKeeps(lines: seq<string>)
    requires |lines| == 6 && Strip(lines[3]) != [] && !IsConversational(Strip(lines[3]))
    ensures NoStopIn(lines, 3, 4)
  {
    ClauseKeeps(lines, 3);
    KeepsOne(lines, 3);
  }

  lemma PreambleClauseLine()
    ensures Strip(Indent + "RETURN f.path") == "RETURN f.path" && !IsConversational("RETURN f.path")
  {
    StripIndented("RETURN f.path");
    ClauseLine("RETURN f.path");
  }

  lemma PreambleEndingLine()
    ensures Strip(Indent + "This will return all file paths.") == "This will return all file paths."
    ensures EndsQueryAfterBlank("This will return all file paths.")
  {
    StripIndented("This will return all file paths.");
    EndingLine("This will return all file paths.");
  }

  lemma PreambleFacts()
    ensures WindowFacts(PreambleLines, 2, 4)
  {
    PreambleNotStart0();
    PreambleStarts2();
    BlankLine();
    PreambleClauseLine();
    PreambleEndingLine();
    PreambleLayout("Sure, I can help with that.", Indent, Indent + "MATCH (f:File)", Indent + "RETURN f.path",
                   Indent + "This will return all file paths.");
  }

  /** The query runs from the `MATCH` line up to the blank line before the closing sentence. */
  lemma PreambleWindow()
    ensures IsFirstQueryWindow(PreambleLines, 2, 4)
  {
    PreambleFacts();
    WindowFromLines(PreambleLines, 2, 4);
  }

  lemma PreambleQueryLines()
    ensures PreambleLines[2..4] == [Indent + "MATCH (f:File)", Indent + "RETURN f.path"]
  {
  }

  lemma PreambleJoined()
    ensures Join(PreambleLines[2..4], '\n') == Indent + ("MATCH (f:File)" + "\n" + Indent + "RETURN f.path")
  {
    PreambleQueryLines();
    JoinTwo(Indent + "MATCH (f:File)", Indent + "RETURN f.path");
  }

  lemma PreambleStripped()
    ensures Strip(Indent + ("MATCH (f:File)" + "\n" + Indent + "RETURN f.path"))
         == "MATCH (f:File)" + "\n" + Indent + "RETURN f.path"
  {
    StripIndented("MATCH (f:File)" + "\n" + Indent + "RETURN f.path");
  }

  lemma PreambleTerminated()
    ensures EnsureSemicolon("MATCH (f:File)" + "\n" + Indent + "RETURN f.path") == "MATCH (f:File)\n        RETURN f.path;"
  {
    var body := "MATCH (f:File)" + "\n" + Indent + "RETURN f.path";
    Terminate(body);
    assert body + [CypherSemicolon] == "MATCH (f:File)\n        RETURN f.path;";
  }

  lemma PreambleBody()
    ensures EnsureSemicolon(Strip(Join(PreambleLines[2..4], '\n'))) == "MATCH (f:File)\n        RETURN f.path;"
  {
    PreambleJoined();
    PreambleStripped();
    PreambleTerminated();
  }

  /** The greeting and the closing sentence are cut; the inner indentation is kept. */
  lemma CleanPreambleGarbage()
    ensures CleanCypherResponse(Join(PreambleLines, '\n')) == "MATCH (f:File)\n        RETURN f.path;"
  {
    PreamblePlainLines();
    PreambleWindow();
    CleanByWindow(PreambleLines, 2, 4);
    PreambleBody();
  }
}
