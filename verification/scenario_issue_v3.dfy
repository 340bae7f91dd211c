/** reproduce_issue_v3.py: a query followed by a blank line and one long sentence of explanation. */
module IssueV3Scenario {
  import opened Strings
  import opened Patterns
  import opened Scanner
  import opened Normalizer
  import opened Cleaning
  import opened ScenarioLines
  import opened IssueV4Scenario

  /** How the sentence after the query opens: with the conversational prefix `The query`. */
  const IssueV3Opening: string := "The query remains essentially the same, "

  /** The rest of that sentence, in pieces. */
  const IssueV3Rest: string :=
    "but I've added an alias file_path to " + "follow the best practice of always " +
    "returning properties with clear " + "aliases. This makes the result more " +
    "semantically clear and follows the " + "guidelines for Cypher query formatting."

  /** The input of reproduce_issue_v3.py, line by line. */
  const IssueV3Lines: seq<string> :=
    ["MATCH (f:File)", "WHERE f.name = 'definitions.py'", "RETURN f.path AS file_path", "",
     IssueV3Opening + IssueV3Rest]

  /** A remark opening like the script's is left as it is by `str.strip()` and ends a query after a blank line. */
  lemma IssueV3RemarkLine(remark: string)
    requires IssueV3Opening <= remark && !IsSpace(remark[|remark| - 1])
    ensures Strip(remark) == remark && EndsQueryAfterBlank(remark)
  {
    assert remark[0] == IssueV3Opening[0] && remark[1] == IssueV3Opening[1];
    Unpadded(remark);
    EndingLine(remark);
  }

  lemma IssueV3Facts(remark: string)
    requires IssueV3Opening <= remark && !IsSpace(remark[|remark| - 1])
    ensures WindowFacts(["MATCH (f:File)", "WHERE f.name = 'definitions.py'", "RETURN f.path AS file_path", "", remark], 0, 3)
  {
    IssueV4Starts0();
    IssueV4Strip1();
    IssueV4Clause1();
    IssueV4Strip2();
    IssueV4Clause2();
    EmptyLine();
    IssueV3RemarkLine(remark);
    IssueV4Layout("MATCH (f:File)", "WHERE f.name = 'definitions.py'", "RETURN f.path AS file_path", "", remark);
  }

  lemma IssueV3PlainLines(remark: string)
    requires PlainLine(remark)
    ensures PlainLines(["MATCH (f:File)", "WHERE f.name = 'definitions.py'", "RETURN f.path AS file_path", "", remark])
  {
    IssueV4Plain0();
    IssueV4Plain1();
    IssueV4Plain2();
    EmptyLine();
    var lines := ["MATCH (f:File)", "WHERE f.name = 'definitions.py'", "RETURN f.path AS file_path", "", remark];
    assert PlainFrom(lines, 3);
    assert PlainFrom(lines, 0);
    PlainFromAll(lines, 0);
  }

  /** The three query lines and the blank line before the remark: the blank line ends the query. */
  lemma QueryThenRemarkWindow(remark: string)
    requires IssueV3Opening <= remark && !IsSpace(remark[|remark| - 1])
    ensures IsFirstQueryWindow(["MATCH (f:File)", "WHERE f.name = 'definitions.py'", "RETURN f.path AS file_path", "", remark], 0, 3)
  {
    IssueV3Facts(remark);
    WindowFromLines(["MATCH (f:File)", "WHERE f.name = 'definitions.py'", "RETURN f.path AS file_path", "", remark], 0, 3);
  }

  lemma QueryThenRemarkHead(remark: string)
    ensures ["MATCH (f:File)", "WHERE f.name = 'definitions.py'", "RETURN f.path AS file_path", "", remark][0..3]
         == IssueV4Head[0..3]
  {
  }

  /**
   * The query lines followed by a blank line and a remark opening with
   * `The query`: the remark is cut and the three query lines terminated,
   * whatever the rest of the remark says.
   */
  lemma CleanQueryThenRemark(remark: string)
    requires IssueV3Opening <= remark && PlainLine(remark) && !IsSpace(remark[|remark| - 1])
    ensures CleanCypherResponse(Join(["MATCH (f:File)", "WHERE f.name = 'definitions.py'", "RETURN f.path AS file_path", "", remark], '\n'))
         == "MATCH (f:File)" + "\n" + "WHERE f.name = 'definitions.py'" + "\n" + "RETURN f.path AS file_path" + ";"
  {
    var lines := ["MATCH (f:File)", "WHERE f.name = 'definitions.py'", "RETURN f.path AS file_path", "", remark];
    IssueV3PlainLines(remark);
    QueryThenRemarkWindow(remark);
    CleanByWindow(lines, 0, 3);
    QueryThenRemarkHead(remark);
    IssueV4Body();
  }

  lemma IssueV3PlainPiece1()
    ensures PlainLine("but I've added an alias file_path to ")
  {
    var s := "but I've added an alias file_path to ";
    forall i | 0 <= i < |s|
      ensures s[i] != '\n' && s[i] != '`'
    {
    }
  }

  lemma IssueV3PlainPiece2()
    ensures PlainLine("follow the best practice of always ")
  {
    var s := "follow the best practice of always ";
    forall i | 0 <= i < |s|
      ensures s[i] != '\n' && s[i] != '`'
    {
    }
  }

  lemma IssueV3PlainPiece3()
    ensures PlainLine("returning properties with clear ")
  {
    var s := "returning properties with clear ";
    forall i | 0 <= i < |s|
      ensures s[i] != '\n' && s[i] != '`'
    {
    }
  }

  lemma IssueV3PlainPiece4()
    ensures PlainLine("aliases. This makes the result more ")
  {
    var s := "aliases. This makes the result more ";
    forall i | 0 <= i < |s|
      ensures s[i] != '\n' && s[i] != '`'
    {
    }
  }

  lemma IssueV3PlainPiece5()
    ensures PlainLine("semantically clear and follows the ")
  {
    var s := "semantically clear and follows the ";
    forall i | 0 <= i < |s|
      ensures s[i] != '\n' && s[i] != '`'
    {
    }
  }

  lemma IssueV3PlainPiece6()
    ensures PlainLine("guidelines for Cypher query formatting.")
  {
    var s := "guidelines for Cypher query formatting.";
    forall i | 0 <= i < |s|
      ensures s[i] != '\n' && s[i] != '`'
    {
    }
  }

  lemma IssueV3OpeningPlain()
    ensures PlainLine(IssueV3Opening)
  {
    var s := IssueV3Opening;
    forall i | 0 <= i < |s|
      ensures s[i] != '\n' && s[i] != '`'
    {
    }
  }

  lemma IssueV3RestPlain()
    ensures PlainLine(IssueV3Rest) && IssueV3Rest[|IssueV3Rest| - 1] == '.'
  {
    IssueV3PlainPiece1();
    IssueV3PlainPiece2();
    IssueV3PlainPiece3();
    IssueV3PlainPiece4();
    IssueV3PlainPiece5();
    IssueV3PlainPiece6();
  }

  /** The remark of the script is cut and the three query lines are terminated. */
  lemma CleanIssueV3()
    ensures CleanCypherResponse(Join(IssueV3Lines, '\n'))
         == "MATCH (f:File)" + "\n" + "WHERE f.name = 'definitions.py'" + "\n" + "RETURN f.path AS file_path" + ";"
  {
    var remark := IssueV3Opening + IssueV3Rest;
    IssueV3OpeningPlain();
    IssueV3RestPlain();
    assert remark[|remark| - 1] == '.';
    CleanQueryThenRemark(remark);
  }
}
