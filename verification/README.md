# Cypher extraction from language-model output

This project models the Cypher-extraction pipeline of the code-graph RAG
service, `codebase_rag/services/llm.py`. A language model answers a
natural-language question with free text. The pipeline cuts one Cypher
statement out of that text and makes sure it ends in exactly one semicolon.

The model has these parts:

- **Normalizer** (`_ensure_semicolon`): removes every trailing `;` and
  appends one.
- **Scanner** (`_extract_cypher_brutal`): a line scanner.
  - It finds the first line that opens with a start clause (`MATCH`, `WITH`,
    `CALL`, `RETURN`, `CREATE`, `MERGE`, `UNWIND`).
  - It keeps lines until a conversational line, or until a blank line whose
    next line neither continues the statement nor is a comment.
  - It then joins and strips what it kept.
  - `Scanner.Extract` is its specification as a function.
    `Scanner.ExtractCypherBrutal` is the two-loop scan of the source, proved
    equal to it.
- **Patterns**: the scanner's regular expressions as hand-written
  predicates.
- **Fence**: the markdown code-block search.
- **Cleaning** (`_clean_cypher_response`): three paths, each tried in turn.
  1. The first fenced block.
  2. The scan of the whole text.
  3. The stripped text without its `cypher` prefix.

  Each path ends in the normalizer. The `try`/`except ValueError` fallbacks
  become matches on a `Result`.
- **Generator** (`CypherGenerator.generate`): a class whose only state is
  its agent.
  - It adds the project-id prefix to the question.
  - It checks the raw output for `MATCH` before cleaning.
  - It wraps every failure in a generation error.
  - The agent is a function from prompt to reply, fixed at construction.

The expected outputs of the repository's cleaning tests and of the
`reproduce_issue_v3.py` and `reproduce_issue_v4.py` scripts are proved as
lemmas in the scenario modules: `BareScenarios`, `PreambleScenario`,
`MultipleScenario`, `IssueV2Scenario`, `IssueV3Scenario` and
`IssueV4Scenario`. `ScenarioLines` holds the line-by-line facts they
share.

Character classes are those Python uses on ASCII text:
- whitespace is space, `\t` through `\r`, and the separators U+001C through
  U+001F (`str.isspace`, which `str.strip()` and `\s` both follow);
- word characters are `[A-Za-z0-9_]`;
- case folding maps `A`–`Z` to `a`–`z` only.

The regex `\b` after a start or continuation keyword is modelled as "end of
text, or a non-word character next". This is exact because every keyword ends
in a letter.

Five behaviours of the code are easy to miss:
- **No trim before terminating.** `_ensure_semicolon` does not strip
  whitespace before it handles the semicolons. Leading whitespace, and any
  whitespace before the trailing semicolons, is kept.
- **No validation after cleaning.** No validation step runs after cleaning. The only
  check is the `MATCH` test in `generate`, and it runs on the raw output
  before cleaning. `RETURN 1` is therefore rejected by `generate`, although
  the cleaner alone turns it into `RETURN 1;`.
- **The last resort keeps the text.** When there is no fence and no start
  line, the text is stripped, a leading `cypher` (in any case) is dropped,
  and the rest is terminated. Prose and stray backticks stay in the result.
- **A fence does not always clean like the bare query.** A stripped query
  in a `cypher`-tagged fence cleans to what the same query cleans to on its
  own whenever the scan finds a start line in it, or when it does not open
  with `cypher`. When the scan finds no start line and the query opens with
  `cypher`, the two differ. Inside the fence the block is taken whole, so
  `CYPHER 5` becomes `CYPHER 5;`. On its own the last-resort path drops the
  leading `cypher`, so it becomes `5;`.
- **`Or` has no word boundary.** The conversational prefix `Or` has no `\b`.
  Lines that start with `OR` or `ORDER` clauses therefore end the scan, even
  though the same lines match the continuation pattern. Lines such as
  `Original…` end it too.

## Model

| member | source | states |
|---|---|---|
| Normalizer.EnsureSemicolon | codebase_rag/services/llm.py:108-111 | the result ends in one `;` with no `;` before it; all of it but the final `;` is a prefix of the input; everything the input has beyond that prefix is `;` |
| Normalizer.EnsureSemicolonFixedPoints | codebase_rag/services/llm.py:108-111 | a query is left unchanged exactly when it already ends in a single `;` |
| Normalizer.EnsureSemicolonIdempotent | codebase_rag/services/llm.py:108-111 | applying the normalisation twice equals applying it once |
| Normalizer.EnsureSemicolonExamples | test_llm_cleaning.py:5-8 | `MATCH (n) RETURN n;` maps to itself; a doubled `;` collapses to one; a missing `;` is added |
| Strings.JoinSplit | codebase_rag/services/llm.py:60 | joining the pieces of a split on `\n` with `\n` gives back the text |
| Strings.SplitJoin | codebase_rag/services/llm.py:105 | splitting the join of lines that contain no `\n` gives back the lines |
| Patterns.MatchesAnyKeywordIff | codebase_rag/services/llm.py:65 | a keyword alternation followed by `\b` matches exactly when one of its alternatives matches |
| Patterns.StartsWithAnyCIIff | codebase_rag/services/llm.py:82 | the conversational alternation matches exactly when one of its prefixes matches, ignoring case |
| Patterns.NumberedGuardVacuous | codebase_rag/services/llm.py:65-73 | a line that matches the start pattern never matches the numbered-list guard, so the guard never rejects a start line |
| Patterns.OrClausesAreConversational | codebase_rag/services/llm.py:82-93 | a line that opens with the `OR` or `ORDER` keyword matches both the conversational pattern and the continuation pattern, so it stops the scan |
| Patterns.OrderAndOrLinesAreConversational | codebase_rag/services/llm.py:82-93 | `ORDER BY n.name` and `OR n.size > 10` are conversational lines and also continuation lines |
| Patterns.LeadingDigits | codebase_rag/services/llm.py:82 | the result counts the digits that open the text: all of them are digits, and the next character, if any, is not a digit |
| Fence.FencedBlock | codebase_rag/services/llm.py:34-36 | defines the search: no block unless a second marker follows the first; otherwise the group between the first marker and the next one (its properties are stated by `Fence.FencedBlockOf` and `Fence.NoMarkerNoBlock`) |
| Fence.FindFence | codebase_rag/services/llm.py:34 | the result is the first fence marker at or after the start position, and there is none when no marker follows |
| Fence.BlockContent | codebase_rag/services/llm.py:34-36 | the captured group, once stripped, equals the text between the markers with the optional `cypher` tag removed, stripped |
| Fence.StripWithoutFinalLineFeed | codebase_rag/services/llm.py:34-36 | leaving the line feed before the closing marker to the pattern's `\n?` does not change what `.strip()` makes of the group |
| Fence.FencedBlockOf | codebase_rag/services/llm.py:34 | when no fence marker starts before the first fence or inside it, the block found is the text between the first two markers, whatever follows them; single backticks, as in inline code or quoted identifiers, are allowed |
| Fence.NoMarkerNoBlock | codebase_rag/services/llm.py:34-35 | a text with no run of three backticks has no fenced block |
| Fence.NoBacktickNoMarker | codebase_rag/services/llm.py:34 | a text without a backtick holds no fence marker, alone or in front of another marker |
| Fence.NoBacktickNoBlock | codebase_rag/services/llm.py:34-35 | a text without a backtick has no fenced block |
| Fence.FindFenceIsFirst | codebase_rag/services/llm.py:34 | a marker with no marker before it is the one the search returns |
| Patterns.IsStartLine | codebase_rag/services/llm.py:65-69 | defines the start pattern: the line without its leading whitespace opens with a start keyword followed by a word boundary (`Patterns.NumberedGuardVacuous` and the `Scanner` lemmas state its consequences) |
| Patterns.IsContinuationLine | codebase_rag/services/llm.py:85 | defines the continuation pattern in the same way over the continuation keywords, `ON CREATE` and `ON MATCH` included (used by `Patterns.OrClausesAreConversational`) |
| Patterns.IsNumberedItem | codebase_rag/services/llm.py:71 | defines `[0-9]+\.` at the start: the whole leading digit run is non-empty and followed by a period (used by `Patterns.NumberedGuardVacuous`) |
| Patterns.IsConversational | codebase_rag/services/llm.py:82 | defines the conversational pattern: a case-insensitive conversational prefix without a word boundary, or a numbered item (used by `Scanner.WindowKeepsNoConversationalLine`) |
| Patterns.IsComment | codebase_rag/services/llm.py:101 | defines the comment test: the stripped line opens with `//` or `/*` |
| Scanner.StopsAt | codebase_rag/services/llm.py:87-103 | defines where the second loop breaks: a conversational stripped line, or a blank line followed by a line that is non-empty, not a continuation and not a comment (used by `Scanner.FirstStop` and `ScenarioLines.BlankStops`) |
| Scanner.Extract | codebase_rag/services/llm.py:59-106 | defines the scan's result as a function (its meaning is stated by `Scanner.ExtractFailsIffNoStartLine`, `Scanner.ExtractIsFirstWindow` and `Scanner.ExtractOkWindow`) |
| Scanner.FirstStart | codebase_rag/services/llm.py:67-73 | the result is the first line at or after the given index that matches the start pattern, and there is none when no later line matches |
| Scanner.FirstStop | codebase_rag/services/llm.py:87-103 | the result is the first line at or after the given index that stops the scan, or the number of lines when no line stops it |
| Scanner.ExtractCypherBrutal | codebase_rag/services/llm.py:59-106 | the two loops as written compute `Extract`: an error when no line starts a query, else the stripped join of the lines from the first start line to the first stopping line |
| Scanner.ExtractFromStart | codebase_rag/services/llm.py:79-106 | once the first start line is known, the scan returns the stripped join of the lines from it up to the first stopping line after it |
| Scanner.ExtractFailsIffNoStartLine | codebase_rag/services/llm.py:67-76 | the scan raises `ValueError` exactly when no line matches the start pattern |
| Scanner.ExtractIsFirstWindow | codebase_rag/services/llm.py:67-106 | first match wins: for any window whose first line is the first start line, with no stopping line inside it, ending at the end of the text or at a stopping line, the scan returns that window joined and stripped |
| Scanner.FirstStartIs | codebase_rag/services/llm.py:67-73 | a start line with no start line before it is the one the first loop selects |
| Scanner.FirstStopIs | codebase_rag/services/llm.py:87-103 | a line that stops the scan, with no stopping line before it, is where the second loop ends |
| Scanner.ExtractOkWindow | codebase_rag/services/llm.py:67-106 | every successful scan returns the stripped join of such a first window, with `start < end <= number of lines` |
| Scanner.WindowKeepsNoConversationalLine | codebase_rag/services/llm.py:82-93 | no line kept after the start line, once stripped, opens with a conversational prefix or a numbered item |
| Scanner.KeptLineNotConversational | codebase_rag/services/llm.py:88-93 | a line where the scan does not stop is not conversational |
| Scanner.ExtractStartsWithKeyword | codebase_rag/services/llm.py:105-106 | a successful scan is non-empty, has no whitespace at either end, and opens with a start keyword followed by a word boundary |
| Strings.Strip | codebase_rag/services/llm.py:106 | defines `str.strip()` as `str.lstrip()` then `str.rstrip()` (used by `Strings.StripUnchanged`, `Strings.TrimStartSpaces` and `Strings.TrimEndSpaces`) |
| Strings.RStripChar | codebase_rag/services/llm.py:110 | the result is a prefix of the input that does not end in the character, and everything removed is that character |
| Strings.Split | codebase_rag/services/llm.py:60 | `str.split` returns at least one piece, and no piece contains the separator |
| Strings.Join | codebase_rag/services/llm.py:105 | defines `sep.join(parts)` (its inverse relation to `Strings.Split` is stated by `Strings.JoinSplit` and `Strings.SplitJoin`) |
| Cleaning.StripLanguagePrefix | codebase_rag/services/llm.py:54-56 | defines the last-resort prefix removal: a leading `cypher`, in any case, is dropped and the rest stripped (used by `Cleaning.CleanWithoutFence`) |
| Cleaning.CleanCypherResponse | codebase_rag/services/llm.py:29-57 | the cleaner is total, and every result ends in exactly one `;` |
| Cleaning.CleanFencedBlock | codebase_rag/services/llm.py:33-45 | with a fence and no fence marker before it or inside it, the result is the terminated scan of the block's content, or the terminated content itself when the scan finds no start line |
| Cleaning.CleanIgnoresTextAroundFence | codebase_rag/services/llm.py:33-45 | the text around the first fenced block does not change the result, as long as no fence marker starts before the block |
| Cleaning.CleanWithoutFence | codebase_rag/services/llm.py:47-57 | for every text without a fenced block, a text with a start line gives its terminated scan; a text without one gives its stripped self, without a leading `cypher`, terminated |
| Cleaning.ExtractSingleQuery | codebase_rag/services/llm.py:59-106 | a text the scanner keeps from its first line to its last scans to the stripped text |
| Cleaning.CleanSingleQuery | codebase_rag/services/llm.py:47-50 | such a text without a fenced block is only stripped and terminated |
| Cleaning.TaggedBlockQuery | codebase_rag/services/llm.py:34-36 | a stripped query on its own lines after the `cypher` tag is exactly what the fenced path scans |
| Cleaning.TaggedFence | codebase_rag/services/llm.py:34 | a `cypher`-tagged fence on lines of its own reads as two markers around the tag, the query and the line breaks, and a query with no fence marker leaves none inside the block |
| Cleaning.CleanFencedMatchesBare | codebase_rag/services/llm.py:33-57 | a stripped query, bare or in a `cypher`-tagged fence with any text around it, is cleaned to the same statement whenever the scan finds a start line in it or it does not open with `cypher`; the query and the text before the fence may hold backticks, just no fence marker; a query the scanner keeps whole is cleaned to itself, terminated |
| Cleaning.CleanFencedDiffersFromBare | codebase_rag/services/llm.py:33-57 | the remaining case: a stripped query with no start line that opens with `cypher` is cleaned, fenced, to itself terminated, and bare, to the terminated text after the prefix; the two results always differ |
| Cleaning.LanguagePrefixTail | codebase_rag/services/llm.py:53-56 | dropping the `cypher` prefix from a stripped text leaves a tail of it that starts after the prefix and any whitespace |
| Strings.RStripTailShorter | codebase_rag/services/llm.py:108-111 | `rstrip(';')` of a tail cut after a character other than `;` is shorter than `rstrip(';')` of the whole text |
| Strings.StrippedEnds | codebase_rag/services/llm.py:36 | a non-empty text that `.strip()` leaves unchanged has non-blank first and last characters |
| Cleaning.KeywordSurvivesEnsureSemicolon | codebase_rag/services/llm.py:108-111 | terminating a stripped text that opens with a start keyword keeps the keyword and its word boundary at the head |
| Cleaning.CleanStartsWithKeyword | codebase_rag/services/llm.py:47-50 | for a text without a fenced block and with a start line, the cleaned statement opens with a start keyword followed by a word boundary |
| Generator.Prompt | codebase_rag/services/llm.py:145-148 | the question is changed exactly when the project id is truthy; it always ends the prompt; with a truthy id the prompt is exactly the opening `For project with id '`, the id, the closing `', ` and the question |
| Generator.PromptDeterminesProjectId | codebase_rag/services/llm.py:145-148 | for a fixed question, two non-empty project ids that give the same prompt are equal |
| Generator.PassesPreCheck | codebase_rag/services/llm.py:151-154 | defines the check before cleaning: a string output whose upper-cased text contains `MATCH` (its behaviour is stated by `Generator.PreCheckIgnoresCase` and the lemmas below) |
| Generator.PreCheckIgnoresCase | codebase_rag/services/llm.py:151-154 | the `MATCH` check accepts an output exactly when it accepts the lower-cased output |
| Generator.PreCheckRejectsReturnOnly | codebase_rag/services/llm.py:151-157 | the output `RETURN 1` fails the check before cleaning |
| Generator.PreCheckAcceptsLowerCase | codebase_rag/services/llm.py:151-154 | the output `match (n) return n` passes the check |
| Generator.CypherGenerator.constructor | codebase_rag/services/llm.py:131-136 | the generator keeps the agent it was given |
| Generator.CypherGenerator.Generate | codebase_rag/services/llm.py:140-164 | it succeeds exactly when the reply to the prompt is a string containing `MATCH` in any case; on success it returns the cleaned output, ending in one `;`; an agent exception, a non-string output and a string without `MATCH` are each wrapped as a generation failure carrying their cause |
| ScenarioLines.CleanByWindow | codebase_rag/services/llm.py:47-50 | a backtick-free text whose lines contain a first query window is cleaned to that window, joined, stripped and terminated |
| ScenarioLines.WindowFromLines | codebase_rag/services/llm.py:67-103 | line-by-line facts are enough: the start line, no start line before it, no stop inside, and a stop or the end at the window's end |
| ScenarioLines.WindowIgnoresLaterLines | codebase_rag/services/llm.py:87-103 | lines after the one that decides the stop do not change the window |
| ScenarioLines.CleanWithAnyTail | codebase_rag/services/llm.py:87-106 | the cleaning of a text is fixed by its lines up to the one after the window, whatever plain lines follow |
| ScenarioLines.NoStopInAll | codebase_rag/services/llm.py:87-103 | checking each line of a range for a stop, one at a time, shows that no line of the range stops the scan |
| ScenarioLines.BlankStops | codebase_rag/services/llm.py:97-103 | a blank line whose next line, stripped, is non-empty, not a continuation and not a comment stops the scan |
| ScenarioLines.BlankKeeps | codebase_rag/services/llm.py:97-103 | a blank line whose next line does not end the query does not stop the scan |
| ScenarioLines.ConversationalStops | codebase_rag/services/llm.py:88-93 | a conversational line stops the scan |
| BareScenarios.CleanSimple | test_llm_cleaning.py:5-8 | `MATCH (n) RETURN n;` is cleaned to itself |
| BareScenarios.CleanMarkdownBlock | test_llm_cleaning.py:10-17 | a `cypher`-tagged fenced query between a greeting and a sign-off is cleaned to `MATCH (n) RETURN n;` |
| BareScenarios.CleanPostQueryExplanation | test_llm_cleaning.py:35-41 | a query followed by a blank line and a `Note:` line is cleaned to `MATCH (n) RETURN n;` |
| BareScenarios.CleanInlineCodeAndQuotedLabel | codebase_rag/services/llm.py:33-45 | inline code in the text before the fence and a backtick-quoted label in the query do not disturb the fence: the result is the query with its label, terminated |
| BareScenarios.CleanSeparatorBeforeQuery | codebase_rag/services/llm.py:59-106 | the separator U+001C in front of a query counts as whitespace: `\u001cMATCH (n)` is cleaned to `MATCH (n);` |
| BareScenarios.CleanPaddedQuery | codebase_rag/services/llm.py:59-106 | any run of whitespace other than a line feed in front of a one-line `MATCH` query is dropped and the query terminated |
| BareScenarios.CleanVersionedQuery | codebase_rag/services/llm.py:33-57 | `CYPHER 5` in a `cypher`-tagged fence, with any text around it, is cleaned to `CYPHER 5;`, and bare to `5;` |
| BareScenarios.QuotedLabelBare | codebase_rag/services/llm.py:47-50 | the bare query with a backtick-quoted label is scanned whole and cleaned to itself, terminated |
| ScenarioLines.OneLineWithoutStart | codebase_rag/services/llm.py:67-76 | a one-line text that does not start a query makes the scan fail |
| ScenarioLines.PaddedKeywordLine | codebase_rag/services/llm.py:59-73 | a line opening with a start keyword after any whitespace starts a query and strips to the keyword line |
| ScenarioLines.SingleLineQuery | codebase_rag/services/llm.py:59-103 | a one-line text that starts a query is kept whole by the scan |
| BareScenarios.CleanReturnOnly | codebase_rag/services/llm.py:47-50 | the bare output `RETURN 1` is cleaned to `RETURN 1;` |
| BareScenarios.PreCheckIsOnRawOutput | codebase_rag/services/llm.py:151-159 | `RETURN 1` fails the check in `generate` although the cleaner would turn it into `RETURN 1;` |
| PreambleScenario.CleanPreambleGarbage | test_llm_cleaning.py:19-33 | the preamble and the closing sentence are cut and the inner indentation is kept: the result is `MATCH (f:File)\n        RETURN f.path;` |
| MultipleScenario.CleanMultipleQueries | test_llm_cleaning.py:43-52 | the `Or fuzzy match:` line ends the scan, so only the first query is kept: `MATCH (n {name: 'foo'}) RETURN n;` |
| IssueV2Scenario.CleanIssueV2 | test_llm_cleaning.py:57-80 | the greeting, the stray `cypher` line and everything from `This query will:` on are cut, whatever plain lines follow |
| IssueV3Scenario.CleanQueryThenRemark | reproduce_issue_v3.py:3 | the three query lines, a blank line and a remark opening with the script's `The query remains essentially the same, ` are cleaned to the three lines terminated, whatever the rest of the remark says |
| IssueV3Scenario.CleanIssueV3 | reproduce_issue_v3.py:3-16 | the script's exact input is cleaned to its expected `MATCH (f:File)\nWHERE f.name = 'definitions.py'\nRETURN f.path AS file_path;` |
| IssueV4Scenario.CleanIssueV4 | reproduce_issue_v4.py:4-23 | the explanation after the blank line is cut, for any plain lines after it: the result is the three query lines terminated |

## Left out

- Async execution, logging and the network call `agent.run` are left out.
  The agent's reply is an input: a string output, an output of another type,
  or a raised exception.
- Provider configuration is not part of this model. This covers
  `_create_provider_model`, the system-prompt choice and the `Agent` built in
  `CypherGenerator.__init__` (codebase_rag/services/llm.py:115-138). The
  constructor takes the agent as a parameter instead.
- An exception raised while the generator is being built is not modelled.
- `create_rag_orchestrator` is a foreign library call and is not part of this
  model.
- codebase_rag/prompts.py is not part of this model: it holds static prompt
  templates. Neither is codebase_rag/providers/anthropic_provider.py, which
  wraps the provider library.
- The constants module is not part of this model. Its values are taken as
  `;` for the terminator, `cypher` for the prefix and `MATCH` for the
  pre-check keyword.
- The exceptions module and the texts of its error messages are not part of
  this model. Errors are values that carry their cause.
- Characters outside ASCII are not modelled. The model treats them as
  ordinary characters. Python also counts some of them as whitespace (such as
  U+0085 and U+00A0) or as word characters. Its case-insensitive matching and
  `str.upper()` also map some of them to ASCII letters (such as U+212A, the
  Kelvin sign, to `k`). On such text the model can differ from the code.
- Generator.CypherGenerator.Generate: the agent is one fixed function, so the same
  prompt always gets the same reply for the generator's lifetime. A language
  model does not promise that. `Generate` is stated for one call, and no
  lemma relates the replies of two calls.
- Generator.CypherGenerator.Generate: the text form of a non-string output is
  an input. It is not derived from the object.
- Scenario lemmas for test_issue_v2_reproduction and reproduce_issue_v4.py:
  the lines after the one that decides the stop are generalised to any lines
  without a line feed or backtick. The exact remaining text of each test is
  one instance.
- The scenario lemma for test_preamble_garbage proves the exact string the
  test names as expected. The test itself asserts only weaker containment
  checks.
