/**
 * The single-query cases of test_llm_cleaning.py: a terminated statement, a
 * fenced block with text around it, and a query followed by a note. Beside
 * them: a fenced query with single backticks before and inside the fence, a
 * query behind an ASCII separator character, a query opening with a
 * `CYPHER` version clause, which the fence keeps and the bare text loses,
 * and the output `RETURN 1`,
 * which the cleaner would terminate but the generator rejects before
 * cleaning because it has no `MATCH`.
 */
module BareScenarios {
  import opened Strings
  import opened Patterns
  import opened Scanner
  import opened Normalizer
  import opened Fence
  import opened Cleaning
  import opened ScenarioLines
  import opened Generator

  // ---------------------------------------------------------------------
  // test_clean_simple

  lemma SimplePlain()
    ensures PlainLine("MATCH (n) RETURN n;")
  {
  }

  lemma SimpleStarts()
    ensures IsStartLine("MATCH (n) RETURN n;")
  {
    KeywordLine("MATCH (n) RETURN n;", 0);
  }

  lemma SimpleTerminated()
    ensures Strip("MATCH (n) RETURN n;") == "MATCH (n) RETURN n;"
    ensures EnsureSemicolon("MATCH (n) RETURN n;") == "MATCH (n) RETURN n;"
  {
    Unpadded("MATCH (n) RETURN n;");
    EnsureSemicolonFixedPoints("MATCH (n) RETURN n;");
  }

  /** A query that is already a single terminated statement comes back unchanged. */
  lemma CleanSimple()
    ensures CleanCypherResponse("MATCH (n) RETURN n;") == "MATCH (n) RETURN n;"
  {
    var lines := ["MATCH (n) RETURN n;"];
    SimplePlain();
    SimpleStarts();
    assert IsFirstQueryWindow(lines, 0, 1);
    CleanByWindow(lines, 0, 1);
    assert lines[0..1] == lines;
    SimpleTerminated();
  }
  // ---------------------------------------------------------------------
  // test_markdown_block

  lemma BareQueryPlain()
    ensures '`' !in "MATCH (n) RETURN n" && '\n' !in "MATCH (n) RETURN n"
  {
  }

  lemma BareQueryStarts()
    ensures IsStartLine("MATCH (n) RETURN n")
  {
    KeywordLine("MATCH (n) RETURN n", 0);
  }

  lemma BareQueryStripped()
    ensures Strip("MATCH (n) RETURN n") == "MATCH (n) RETURN n"
  {
    Unpadded("MATCH (n) RETURN n");
  }

  lemma BareQueryTerminated()
    ensures EnsureSemicolon("MATCH (n) RETURN n") == "MATCH (n) RETURN n;"
  {
    Terminate("MATCH (n) RETURN n");
  }

  /** The bare query is kept whole by the scanner. */
  lemma BareQuerySingle()
    ensures IsSingleQuery("MATCH (n) RETURN n")
  {
    BareQueryPlain();
    BareQueryStarts();
    BareQueryStripped();
    SplitNoSeparator("MATCH (n) RETURN n", '\n');
  }

  lemma MarkdownOpeningPlain()
    ensures '`' !in "Here is the query:\n"
  {
  }

  /** The explanation before the fence and the closing remark after it are dropped. */
  lemma CleanMarkdownBlock()
    ensures CleanCypherResponse("Here is the query:\n" + "```cypher\n" + "MATCH (n) RETURN n" + "\n```" + "\nHope that helps!")
         == "MATCH (n) RETURN n;"
  {
    var pre := "Here is the query:\n";
    var q := "MATCH (n) RETURN n";
    MarkdownOpeningPlain();
    BareQueryPlain();
    BareQueryStripped();
    BareQuerySingle();
    NoBacktickNoMarker(pre);
    NoBacktickNoMarker(q);
    ExtractSingleQuery(q);
    CleanFencedMatchesBare(pre, q, "\nHope that helps!");
    assert pre + "```cypher\n" + q + "\n```" + "\nHope that helps!"
        == "Here is the query:\n" + "```cypher\n" + "MATCH (n) RETURN n" + "\n```" + "\nHope that helps!";
    BareQueryTerminated();
  }
  // ---------------------------------------------------------------------
  // test_post_query_explanation

  const PostQueryLines: seq<string> := ["MATCH (n) RETURN n", Indent, Indent + "Note: This is a simple query."]

  lemma PostQueryPlain2()
    ensures PlainLine(Indent + "Note: This is a simple query.")
  {
    var s := "Note: This is a simple query.";
    forall i | 0 <= i < |s|
      ensures s[i] != '\n' && s[i] != '`'
    {
    }
    IndentedLine("Note: This is a simple query.");
  }

  lemma PostQueryStrip2()
    ensures Strip(Indent + "Note: This is a simple query.") == "Note: This is a simple query."
  {
    StripIndented("Note: This is a simple query.");
  }

  lemma PostQueryEnding2()
    ensures EndsQueryAfterBlank("Note: This is a simple query.")
  {
    EndingLine("Note: This is a simple query.");
  }

  lemma PostQueryPlainLines()
    ensures PlainLines(PostQueryLines)
  {
    BareQueryPlain();
    BlankLine();
    PostQueryPlain2();
    assert PlainFrom(PostQueryLines, 2);
    assert PlainFrom(PostQueryLines, 1);
    assert PlainFrom(PostQueryLines, 0);
    PlainFromAll(PostQueryLines, 0);
  }

  /** The shape of the input: the start line, then a blank line before a line that ends a query. */
  lemma PostQueryLayout(l0: string, blank: string, l2: string)
    requires IsStartLine(l0) && Strip(blank) == [] && EndsQueryAfterBlank(Strip(l2))
    ensures WindowFacts([l0, blank, l2], 0, 1)
  {
    BlankStops([l0, blank, l2], 1);
  }

  lemma PostQueryFacts()
    ensures WindowFacts(PostQueryLines, 0, 1)
  {
    BareQueryStarts();
    BlankLine();
    PostQueryStrip2();
    PostQueryEnding2();
    PostQueryLayout("MATCH (n) RETURN n", Indent, Indent + "Note: This is a simple query.");
  }

  /** The query is the first line alone: the blank line before the note ends it. */
  lemma PostQueryWindow()
    ensures IsFirstQueryWindow(PostQueryLines, 0, 1)
  {
    PostQueryFacts();
    WindowFromLines(PostQueryLines, 0, 1);
  }

  lemma PostQueryBody()
    ensures EnsureSemicolon(Strip(Join(PostQueryLines[0..1], '\n'))) == "MATCH (n) RETURN n;"
  {
    assert PostQueryLines[0..1] == ["MATCH (n) RETURN n"];
    BareQueryStripped();
    BareQueryTerminated();
  }

  /** The note after the query is cut and the query terminated. */
  lemma CleanPostQueryExplanation()
    ensures CleanCypherResponse(Join(PostQueryLines, '\n')) == "MATCH (n) RETURN n;"
  {
    PostQueryPlainLines();
    PostQueryWindow();
    CleanByWindow(PostQueryLines, 0, 1);
    PostQueryBody();
  }

  // ---------------------------------------------------------------------
  // single backticks: inline code before the fence, a quoted label inside it

  /** An explanation quoting a label as inline code, before the fence. */
  const InlineCodeIntro: string := "Here is the query for `File` nodes:\n"
  /** A query quoting a label with spaces in backticks. */
  const QuotedLabelQuery: string := "MATCH (n:`My Label`) RETURN n"

  lemma InlineCodeNoMarker()
    ensures NoMarkerIn(InlineCodeIntro)
  {
    var pre := InlineCodeIntro;
    forall j | 0 <= j < |pre|
      ensures !FenceAt(pre + "```", j)
    {
    }
  }

  lemma QuotedLabelNoMarker()
    ensures NoMarker(QuotedLabelQuery) && '\n' !in QuotedLabelQuery
  {
    var q := QuotedLabelQuery;
    forall j | 0 <= j < |q|
      ensures !FenceAt(q, j) && q[j] != '\n'
    {
    }
  }

  lemma QuotedLabelStarts()
    ensures IsStartLine(QuotedLabelQuery) && Strip(QuotedLabelQuery) == QuotedLabelQuery
  {
    KeywordLine(QuotedLabelQuery, 0);
    Unpadded(QuotedLabelQuery);
  }

  lemma QuotedLabelSingle()
    ensures IsSingleQuery(QuotedLabelQuery)
  {
    QuotedLabelNoMarker();
    QuotedLabelStarts();
    SingleLineQuery(QuotedLabelQuery);
  }

  /**
   * Backticks that form no fence marker, such as inline code in the
   * explanation or a quoted label in the query, do not disturb the fence:
   * the query in the block is kept, backticks included.
   */
  lemma CleanInlineCodeAndQuotedLabel()
    ensures CleanCypherResponse(InlineCodeIntro + "```cypher\n" + QuotedLabelQuery + "\n```")
         == QuotedLabelQuery + ";"
  {
    var pre := InlineCodeIntro;
    var q := QuotedLabelQuery;
    InlineCodeNoMarker();
    QuotedLabelNoMarker();
    QuotedLabelBare();
    CleanFencedMatchesBare(pre, q, "");
    assert pre + "```cypher\n" + q + "\n```" + "" == pre + "```cypher\n" + q + "\n```";
  }

  /** Bare, the query with the quoted label is kept whole and terminated. */
  lemma QuotedLabelBare()
    ensures Strip(QuotedLabelQuery) == QuotedLabelQuery && Extract(QuotedLabelQuery).Ok?
    ensures CleanCypherResponse(QuotedLabelQuery) == QuotedLabelQuery + ";"
  {
    var q := QuotedLabelQuery;
    QuotedLabelNoMarker();
    QuotedLabelStarts();
    QuotedLabelSingle();
    ExtractSingleQuery(q);
    NoMarkerNoBlock(q);
    CleanSingleQuery(q);
    Terminate(q);
  }

  // ---------------------------------------------------------------------
  // an ASCII separator character in front of the query

  /** A query behind the file separator U+001C. */
  const SeparatedQuery: string := "\U{1C}" + "MATCH (n)"

  /**
   * The file separator U+001C is whitespace to `\s` and `str.strip()`, so it
   * is dropped in front of the query.
   */
  lemma CleanSeparatorBeforeQuery()
    ensures CleanCypherResponse(SeparatedQuery) == "MATCH (n);"
  {
    CleanPaddedQuery("\U{1C}", "MATCH (n)");
  }

  /** A single line of whitespace and a `MATCH` clause is cleaned to the clause, terminated. */
  lemma CleanPaddedQuery(ws: string, q: string)
    requires forall i :: 0 <= i < |ws| ==> IsSpace(ws[i]) && ws[i] != '\n'
    requires "MATCH " <= q && !IsSpace(q[|q| - 1]) && q[|q| - 1] != ';' && PlainLine(q)
    ensures CleanCypherResponse(ws + q) == q + ";"
  {
    var lines := [ws + q];
    assert StartKeywords[0] == "MATCH";
    PaddedKeywordLine(ws, q, 0);
    assert PlainLine(ws + q) by {
      assert '`' !in ws;
    }
    assert IsFirstQueryWindow(lines, 0, 1);
    CleanByWindow(lines, 0, 1);
    assert lines[0..1] == lines;
    Terminate(q);
  }

  // ---------------------------------------------------------------------
  // a query opening with the language prefix, fenced and bare

  /** A query that opens with a version clause and holds no start line. */
  const VersionedQuery: string := "CYPHER 5"

  lemma VersionedQueryNoStart()
    ensures '\n' !in VersionedQuery && !IsStartLine(VersionedQuery)
  {
    ProseLine(VersionedQuery);
  }

  lemma VersionedQueryPrefix()
    ensures StartsWithCI(VersionedQuery, CypherPrefix)
  {
    StartsWithCIChars(VersionedQuery, CypherPrefix);
  }

  lemma VersionedQueryFacts()
    ensures NoMarker(VersionedQuery) && Strip(VersionedQuery) == VersionedQuery
    ensures Extract(VersionedQuery).Err? && StartsWithCI(VersionedQuery, CypherPrefix)
  {
    NoBacktickNoMarker(VersionedQuery);
    Unpadded(VersionedQuery);
    VersionedQueryNoStart();
    OneLineWithoutStart(VersionedQuery);
    VersionedQueryPrefix();
  }

  lemma VersionedQueryBare()
    ensures StripLanguagePrefix(VersionedQuery) == "5"
  {
    var q := VersionedQuery;
    StartsWithCIChars(q, CypherPrefix);
    assert q[|CypherPrefix|..] == " " + "5";
    TrimStartSpaces(" ", "5");
    StripUnchanged("5");
  }

  /**
   * Fenced, with any text around the fence, the block has no start line and
   * is taken whole with its `CYPHER` clause; bare, the scan fails too and the
   * last-resort path drops the leading `cypher` as a language prefix.
   */
  lemma CleanVersionedQuery(pre: string, post: string)
    requires NoMarkerIn(pre)
    ensures CleanCypherResponse(pre + "```cypher\n" + VersionedQuery + "\n```" + post) == VersionedQuery + ";"
    ensures CleanCypherResponse(VersionedQuery) == "5;"
  {
    VersionedQueryFacts();
    CleanFencedDiffersFromBare(pre, VersionedQuery, post);
    VersionedQueryBare();
    VersionedQueryTerminated();
  }

  lemma VersionedQueryTerminated()
    ensures EnsureSemicolon(VersionedQuery) == VersionedQuery + ";" && EnsureSemicolon("5") == "5;"
  {
    Terminate(VersionedQuery);
    Terminate("5");
  }

  // ---------------------------------------------------------------------
  // the pre-check of `generate` against the cleaner

  lemma ReturnOnlyPlain()
    ensures PlainLine("RETURN 1")
  {
  }

  lemma ReturnOnlyStarts()
    ensures IsStartLine("RETURN 1")
  {
    KeywordLine("RETURN 1", 3);
  }

  lemma ReturnOnlyTerminated()
    ensures EnsureSemicolon(Strip("RETURN 1")) == "RETURN 1;"
  {
    Unpadded("RETURN 1");
    Terminate("RETURN 1");
  }

  /** The cleaner alone would turn a bare `RETURN` clause into a statement. */
  lemma CleanReturnOnly()
    ensures CleanCypherResponse("RETURN 1") == "RETURN 1;"
  {
    var lines := ["RETURN 1"];
    ReturnOnlyPlain();
    ReturnOnlyStarts();
    assert IsFirstQueryWindow(lines, 0, 1);
    CleanByWindow(lines, 0, 1);
    assert lines[0..1] == lines;
    ReturnOnlyTerminated();
  }

  /**
   * `generate` checks the raw output, not the cleaned query: an output that
   * the cleaner would turn into a statement is still rejected without `MATCH`.
   */
  lemma PreCheckIsOnRawOutput()
    ensures !PassesPreCheck(TextOutput("RETURN 1")) && CleanCypherResponse("RETURN 1") == "RETURN 1;"
  {
    PreCheckRejectsReturnOnly();
    CleanReturnOnly();
  }
}
