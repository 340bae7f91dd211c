/**
 * The decision layer of `CypherGenerator.generate` in
 * codebase_rag/services/llm.py: the project-id prefix on the question, the
 * check of the model's output before cleaning, and the wrapping of every
 * failure in `LLMGenerationError`. The language-model agent is a function
 * from prompt to reply, fixed when the generator is built.
 */
module Generator {
  import opened Wrappers
  import opened Strings
  import opened Normalizer
  import opened Cleaning

  /** The keyword every accepted model output must contain (`CYPHER_MATCH_KEYWORD`). */
  const MatchKeyword: string := "MATCH"

  /** The text put before the project id, and between the id and the question. */
  const ProjectIdOpening: string := "For project with id '"
  const ProjectIdClosing: string := "', "

  /** What `agent.run` hands back: a string output, an output of another type (by its text form), or an exception. */
  datatype AgentReply = TextOutput(text: string) | NonTextOutput(repr: string) | AgentFailure(message: string)

  /** The exception caught by `generate`: one raised by the agent, or its own invalid-output error. */
  datatype FailureCause = AgentRaised(message: string) | InvalidQuery(output: string)

  /** `LLMGenerationError` wrapping the caught exception as `LLM_GENERATION_FAILED`. */
  datatype GenerationError = GenerationFailed(cause: FailureCause)

  /** Python truthiness of `project_id: str | None`: present and non-empty. */
  predicate IsTruthy(projectId: Option<string>) {
    projectId.Some? && projectId.value != []
  }

  /**
   * The prompt sent to the agent: the question, prefixed with the project id
   * only when the id is truthy. The prefix is the opening text, the id and the
   * closing text, in that order, with nothing else between them.
   */
  function Prompt(question: string, projectId: Option<string>): (p: string)
    ensures p == question <==> !IsTruthy(projectId)
    ensures |question| <= |p| && p[|p| - |question|..] == question
    ensures IsTruthy(projectId) ==>
              ProjectIdOpening <= p && OccursAt(p, projectId.value, |ProjectIdOpening|)
    ensures IsTruthy(projectId) ==>
              |p| == |ProjectIdOpening| + |projectId.value| + |ProjectIdClosing| + |question| &&
              OccursAt(p, ProjectIdClosing, |ProjectIdOpening| + |projectId.value|)
  {
    if IsTruthy(projectId) then
      var p := ProjectIdOpening + projectId.value + ProjectIdClosing + question;
      var n := |ProjectIdOpening| + |projectId.value|;
      assert p[|ProjectIdOpening|..n] == projectId.value;
      assert p[n..n + |ProjectIdClosing|] == ProjectIdClosing;
      assert p[|p| - |question|..] == question;
      p
    else
      question
  }

  /** For a fixed question, the prompt tells which project id was given. */
  lemma PromptDeterminesProjectId(question: string, id1: string, id2: string)
    requires id1 != [] && id2 != []
    requires Prompt(question, Some(id1)) == Prompt(question, Some(id2))
    ensures id1 == id2
  {
    var p := Prompt(question, Some(id1));
    assert |p| == |ProjectIdOpening| + |id1| + |ProjectIdClosing| + |question|;
    assert |p| == |ProjectIdOpening| + |id2| + |ProjectIdClosing| + |question|;
    assert OccursAt(p, id1, |ProjectIdOpening|) && OccursAt(p, id2, |ProjectIdOpening|);
  }

  /** The check made before cleaning: a string output whose upper-cased text contains `MATCH`. */
  predicate PassesPreCheck(reply: AgentReply) {
    reply.TextOutput? && Contains(UpperStr(reply.text), MatchKeyword)
  }

  /** The check ignores letter case: an output passes exactly when its lower-cased form does. */
  lemma PreCheckIgnoresCase(text: string)
    ensures PassesPreCheck(TextOutput(LowerStr(text))) <==> PassesPreCheck(TextOutput(text))
  {
    assert UpperStr(LowerStr(text)) == UpperStr(text) by {
      forall i | 0 <= i < |text|
        ensures Upper(Lower(text[i])) == Upper(text[i])
      {
      }
    }
  }

  /** An output without `MATCH` is rejected, whatever the cleaner would make of it. */
  lemma PreCheckRejectsReturnOnly()
    ensures !PassesPreCheck(TextOutput("RETURN 1"))
  {
    var upper := UpperStr("RETURN 1");
    assert upper == "RETURN 1";
    forall i | 0 <= i <= |upper|
      ensures !OccursAt(upper, MatchKeyword, i)
    {
      if 0 <= i <= |upper| - |MatchKeyword| {
        assert upper[i..i + |MatchKeyword|][0] == upper[i] != 'M';
      }
    }
  }

  /** The keyword is found in lower case too. */
  lemma PreCheckAcceptsLowerCase()
    ensures PassesPreCheck(TextOutput("match (n) return n"))
  {
    assert UpperStr("match (n) return n")[0..5] == MatchKeyword;
    assert OccursAt(UpperStr("match (n) return n"), MatchKeyword, 0);
  }

  /** A generator holding the configured agent. */
  class CypherGenerator {
    const agent: string -> AgentReply

    /** Provider and prompt configuration are outside the model: the agent is given. */
    constructor(agent: string -> AgentReply)
      ensures this.agent == agent
    {
      this.agent := agent;
    }

    /**
     * Sends the (prefixed) question to the agent. A string output containing
     * `MATCH` in any case is cleaned and returned; anything else, including
     * the generator's own invalid-output error, comes back wrapped as a
     * generation failure.
     */
    method Generate(question: string, projectId: Option<string>) returns (r: Result<string, GenerationError>)
      ensures var reply := agent(Prompt(question, projectId));
              (r.Ok? <==> PassesPreCheck(reply)) &&
              (r.Ok? ==> r.value == CleanCypherResponse(reply.text) && EndsWithSingleSemicolon(r.value)) &&
              (reply.AgentFailure? ==> r == Err(GenerationFailed(AgentRaised(reply.message)))) &&
              (reply.NonTextOutput? ==> r == Err(GenerationFailed(InvalidQuery(reply.repr)))) &&
              (reply.TextOutput? && r.Err? ==> r == Err(GenerationFailed(InvalidQuery(reply.text))))
    {
      var prompt := if IsTruthy(projectId) then ProjectIdOpening + projectId.value + ProjectIdClosing + question else question;
      assert prompt == Prompt(question, projectId);
      var reply := agent(prompt);
      if reply.AgentFailure? {
        return Err(GenerationFailed(AgentRaised(reply.message)));
      }
      if reply.NonTextOutput? {
        return Err(GenerationFailed(InvalidQuery(reply.repr)));
      }
      if !Contains(UpperStr(reply.text), MatchKeyword) {
        return Err(GenerationFailed(InvalidQuery(reply.text)));
      }
      var query := CleanCypherResponse(reply.text);
      return Ok(query);
    }
  }
}
