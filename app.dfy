/**
 * The pipeline orchestrator (`run_solver_pipeline`) and the sidebar's API-key
 * dispatch. Every stage is an external call; the orchestrator's own logic is
 * the order of the calls, the two early exits and the confidence gate.
 */
module App {
  import opened Wrappers
  import opened Strings
  import opened Environment
  import opened Parser
  import Solver
  import Llm
  import Store

  /** The router's advisory decision; shown to the user, never acted upon. */
  datatype Routing = Routing(category: string, complexity: string, recommendedTools: seq<string>)

  /** The verifier's judgment. */
  datatype Verification = Verification(isCorrect: bool, confidence: real, critique: string, correction: string)

  /**
   * The five stages as the orchestrator sees them. `structure` is the
   * parser's structuring call; the parser stage itself is `Parser.Parse`.
   * Each other stage gives its record or the exception it raised.
   */
  datatype Agents = Agents(
    structure: string -> Result<ProblemSpec>,
    route: ProblemSpec -> Result<Routing>,
    solve: ProblemSpec -> Result<Solver.SolveResult>,
    verify: (string, string) -> Result<Verification>,
    explain: (string, string, seq<string>) -> Result<string>)

  /** A stage invocation with the arguments it received. */
  datatype Call =
    | ParseCall(text: string)
    | RouteCall(spec: ProblemSpec)
    | SolveCall(spec: ProblemSpec)
    | VerifyCall(problem: string, solution: string)
    | ExplainCall(problem: string, solution: string, citations: seq<string>)

  /**
   * The three result shapes `run_solver_pipeline` returns, and `Raised` for
   * an exception that escapes it.
   */
  datatype PipelineResult =
    | Success(solution: string, explanation: string, verification: Verification, citations: seq<string>)
    | Clarification(data: ProblemSpec)
    | VerificationFailed(solution: string, verification: Verification, solveResult: Solver.SolveResult)
    | Raised(error: string)

  /** A pipeline run: its result and the stage calls it made, in order. */
  datatype Run = Run(result: PipelineResult, calls: seq<Call>)

  const Threshold: real := 0.8
  /** The KeyError raised by `parsed["problem_text"]` when the record lacks it. */
  const MissingProblemText := "KeyError: 'problem_text'"

  /** The gate as written: reject when not correct or when confidence is below 0.8. */
  predicate GateRejects(v: Verification) {
    !v.isCorrect || v.confidence < Threshold
  }

  function Parsed(text: string, agents: Agents): ProblemSpec {
    Parse(text, agents.structure(text))
  }

  /** The calls of a run that got past the gate. */
  function FullTrace(text: string, spec: ProblemSpec, problem: string, solution: string): seq<Call> {
    [ParseCall(text), RouteCall(spec), SolveCall(spec), VerifyCall(problem, solution), ExplainCall(problem, solution, [])]
  }

  /** The sequential state machine of one run. */
  function PipelineRun(text: string, agents: Agents): (run: Run)
    ensures |run.calls| >= 1 && run.calls[0] == ParseCall(text)
    ensures run.result.Clarification? <==> Parsed(text, agents).needsClarification
    ensures run.result.Clarification? ==>
      run.result.data == Parsed(text, agents) && run.calls == [ParseCall(text)]
    ensures !run.result.Clarification? ==>
      |run.calls| >= 2 && run.calls[1] == RouteCall(Parsed(text, agents))
    ensures run.result.Success? ==>
      && !GateRejects(run.result.verification)
      && Parsed(text, agents).problemText.Some?
      && run.calls == FullTrace(text, Parsed(text, agents), Parsed(text, agents).problemText.value, run.result.solution)
    ensures run.result.VerificationFailed? ==>
      && GateRejects(run.result.verification)
      && Parsed(text, agents).problemText.Some?
      && run.calls == FullTrace(text, Parsed(text, agents), Parsed(text, agents).problemText.value, run.result.solution)[..4]
    ensures forall i :: 0 <= i < |run.calls| && run.calls[i].ExplainCall? ==> run.result.Success? || run.result.Raised?
  {
    var parsed := Parsed(text, agents);
    if parsed.needsClarification then Run(Clarification(parsed), [ParseCall(text)])
    else
      var routed := [ParseCall(text), RouteCall(parsed)];
      match agents.route(parsed)
      case Err(e) => Run(Raised(e), routed)
      case Ok(_) =>
        var solved := routed + [SolveCall(parsed)];
        match agents.solve(parsed)
        case Err(e) => Run(Raised(e), solved)
        case Ok(solveResult) =>
          var solution := solveResult.solution;
          if parsed.problemText.None? then Run(Raised(MissingProblemText), solved)
          else
            var problem := parsed.problemText.value;
            var verified := solved + [VerifyCall(problem, solution)];
            match agents.verify(problem, solution)
            case Err(e) => Run(Raised(e), verified)
            case Ok(verification) =>
              if GateRejects(verification) then
                Run(VerificationFailed(solution, verification, solveResult), verified)
              else
                var explained := verified + [ExplainCall(problem, solution, [])];
                match agents.explain(problem, solution, [])
                case Err(e) => Run(Raised(e), explained)
                case Ok(explanation) =>
                  Run(Success(solution, explanation, verification, solveResult.citations), explained)
  }

  /** A run in which parsing asked for nothing and every stage up to the verifier answered. */
  predicate ReachesGate(text: string, agents: Agents) {
    var parsed := Parsed(text, agents);
    && !parsed.needsClarification
    && agents.route(parsed).Ok?
    && agents.solve(parsed).Ok?
    && parsed.problemText.Some?
    && agents.verify(parsed.problemText.value, agents.solve(parsed).value.solution).Ok?
  }

  /** The verifier's record in a run that reaches the gate. */
  function GateInput(text: string, agents: Agents): Verification
    requires ReachesGate(text, agents)
  {
    var parsed := Parsed(text, agents);
    agents.verify(parsed.problemText.value, agents.solve(parsed).value.solution).value
  }

  /**
   * The gate decides the outcome exactly: a run that reaches it ends in
   * success precisely when the verifier says correct with confidence at
   * least 0.8 (and the explainer answers); otherwise in a verification failure.
   */
  lemma GateDecidesOutcome(text: string, agents: Agents)
    requires ReachesGate(text, agents)
    ensures var v := GateInput(text, agents);
      var r := PipelineRun(text, agents).result;
      && (r.VerificationFailed? <==> !(v.isCorrect && v.confidence >= 0.8))
      && (r.Success? ==> v.isCorrect && v.confidence >= 0.8)
      && (v.isCorrect && v.confidence >= 0.8 ==> r.Success? || r.Raised?)
    ensures var parsed := Parsed(text, agents);
      var problem := parsed.problemText.value;
      var solution := agents.solve(parsed).value.solution;
      var r := PipelineRun(text, agents).result;
      !GateRejects(GateInput(text, agents)) ==> (r.Success? <==> agents.explain(problem, solution, []).Ok?)
  {
  }

  /**
   * A stage that raises ends the run: the exception escapes with its
   * message, and no later stage is called. A parsed record without a
   * problem text raises the KeyError of `parsed["problem_text"]` after solving.
   */
  lemma RaisingStageEndsRun(text: string, agents: Agents)
    requires !Parsed(text, agents).needsClarification
    ensures var parsed := Parsed(text, agents);
      var run := PipelineRun(text, agents);
      var routed := [ParseCall(text), RouteCall(parsed)];
      && (agents.route(parsed).Err? ==> run == Run(Raised(agents.route(parsed).error), routed))
      && (agents.route(parsed).Ok? && agents.solve(parsed).Err? ==>
            run == Run(Raised(agents.solve(parsed).error), routed + [SolveCall(parsed)]))
      && (agents.route(parsed).Ok? && agents.solve(parsed).Ok? && parsed.problemText.None? ==>
            run == Run(Raised(MissingProblemText), routed + [SolveCall(parsed)]))
  {
  }

  /** A raising verifier or explainer ends the run in the same way. */
  lemma RaisingJudgeEndsRun(text: string, agents: Agents)
    requires !Parsed(text, agents).needsClarification
    requires agents.route(Parsed(text, agents)).Ok? && agents.solve(Parsed(text, agents)).Ok?
    requires Parsed(text, agents).problemText.Some?
    ensures var parsed := Parsed(text, agents);
      var problem := parsed.problemText.value;
      var solution := agents.solve(parsed).value.solution;
      var run := PipelineRun(text, agents);
      var verified := [ParseCall(text), RouteCall(parsed), SolveCall(parsed), VerifyCall(problem, solution)];
      && (agents.verify(problem, solution).Err? ==>
            run == Run(Raised(agents.verify(problem, solution).error), verified))
      && (agents.verify(problem, solution).Ok? && !GateRejects(agents.verify(problem, solution).value) &&
          agents.explain(problem, solution, []).Err? ==>
            run == Run(Raised(agents.explain(problem, solution, []).error),
                       verified + [ExplainCall(problem, solution, [])]))
  {
  }

  /** The gate's boundary: exactly 0.8 passes; 0.7999, or 0.55 even when correct, fails. */
  lemma GateBoundary(critique: string, correction: string)
    ensures !GateRejects(Verification(true, 0.8, critique, correction))
    ensures GateRejects(Verification(true, 0.7999, critique, correction))
    ensures GateRejects(Verification(true, 0.55, critique, correction))
    ensures GateRejects(Verification(false, 1.0, critique, correction))
  {
  }

  /**
   * The payloads. A failure carries the solver's solution, the verifier's
   * record unchanged and the whole solver result; a success carries the
   * solver's solution, the explainer's text, the verifier's record and the
   * solver's citations. Verifier and explainer receive the parsed problem
   * text and the solution, the explainer no citations.
   */
  lemma PayloadsCarryStageResults(text: string, agents: Agents)
    requires ReachesGate(text, agents)
    ensures var parsed := Parsed(text, agents);
      var solved := agents.solve(parsed).value;
      var problem := parsed.problemText.value;
      var r := PipelineRun(text, agents).result;
      && (r.VerificationFailed? ==>
            r == VerificationFailed(solved.solution, agents.verify(problem, solved.solution).value, solved))
      && (r.Success? ==>
            && agents.explain(problem, solved.solution, []).Ok?
            && r == Success(solved.solution, agents.explain(problem, solved.solution, []).value,
                            agents.verify(problem, solved.solution).value, solved.citations))
  {
  }

  /** The router is advisory: which answer it gives never changes the result. */
  lemma RouterIsAdvisory(text: string, agents: Agents, otherRoute: ProblemSpec -> Result<Routing>)
    requires agents.route(Parsed(text, agents)).Ok? && otherRoute(Parsed(text, agents)).Ok?
    ensures PipelineRun(text, agents).result == PipelineRun(text, agents.(route := otherRoute)).result
    ensures PipelineRun(text, agents).calls == PipelineRun(text, agents.(route := otherRoute)).calls
  {
  }

  /**
   * When the parser's structuring call fails, the run stops at clarification
   * with the degraded record, and no other stage is called.
   */
  lemma ParseFailureStopsAtClarification(text: string, agents: Agents)
    requires agents.structure(text).Err?
    ensures var run := PipelineRun(text, agents);
      && run.calls == [ParseCall(text)]
      && run.result.Clarification?
      && run.result.data.problemText == Some(text)
      && run.result.data.clarificationQuestion.Some?
      && OccursAt(run.result.data.clarificationQuestion.value, agents.structure(text).error, |FailurePrefix|)
  {
  }

  /** A solver stage assembled from `Solver.Solve` over two retrievers and a generator. */
  function SolverStage(retrieveMemory: Solver.Retriever, retrieve: Solver.Retriever,
                       generate: Solver.SolverPrompt -> Result<string>): ProblemSpec -> Result<Solver.SolveResult>
  {
    spec => Solver.Solve(spec, retrieveMemory, retrieve, generate)
  }

  /**
   * With the solver stage built from `Solver.Solve`, every citation of a
   * successful run names the source of a document the knowledge retrieval
   * returned for the run's query.
   */
  lemma SuccessCitationsFromKnowledge(text: string, agents: Agents, retrieveMemory: Solver.Retriever,
                                                         retrieve: Solver.Retriever,
                                                         generate: Solver.SolverPrompt -> Result<string>)
    requires agents.solve == SolverStage(retrieveMemory, retrieve, generate)
    requires PipelineRun(text, agents).result.Success?
    ensures var found := retrieve(Solver.Query(Parsed(text, agents)), Solver.KnowledgeK);
      forall c :: c in PipelineRun(text, agents).result.citations ==>
        found.Ok? && exists d :: d in found.value && Solver.SourceOf(d) == c
  {
  }

  /** The session state the orchestrator writes. */
  class Session {
    var currentProblemData: Option<ProblemSpec>

    constructor ()
      ensures currentProblemData == None
    {
      currentProblemData := None;
    }

    /**
     * `run_solver_pipeline`: runs the stages in order and records the parsed
     * problem in the session once parsing has not asked for clarification.
     */
    method RunSolverPipeline(text: string, agents: Agents) returns (result: PipelineResult, calls: seq<Call>)
      modifies this
      ensures Run(result, calls) == PipelineRun(text, agents)
      ensures currentProblemData ==
        if Parsed(text, agents).needsClarification then old(currentProblemData) else Some(Parsed(text, agents))
    {
      calls := [ParseCall(text)];
      var parsed := Parse(text, agents.structure(text));
      if parsed.needsClarification {
        return Clarification(parsed), calls;
      }
      currentProblemData := Some(parsed);

      calls := calls + [RouteCall(parsed)];
      var route := agents.route(parsed);
      if route.Err? {
        return Raised(route.error), calls;
      }

      calls := calls + [SolveCall(parsed)];
      var solved := agents.solve(parsed);
      if solved.Err? {
        return Raised(solved.error), calls;
      }
      var solveResult := solved.value;
      var solution := solveResult.solution;

      if parsed.problemText.None? {
        return Raised(MissingProblemText), calls;
      }
      var problem := parsed.problemText.value;
      calls := calls + [VerifyCall(problem, solution)];
      var verified := agents.verify(problem, solution);
      if verified.Err? {
        return Raised(verified.error), calls;
      }
      var verification := verified.value;
      if GateRejects(verification) {
        return VerificationFailed(solution, verification, solveResult), calls;
      }

      calls := calls + [ExplainCall(problem, solution, [])];
      var explained := agents.explain(problem, solution, []);
      if explained.Err? {
        return Raised(explained.error), calls;
      }
      result := Success(solution, explained.value, verification, solveResult.citations);
    }
  }

  // ---- Sidebar API-key dispatch ----

  const OpenAIInputPrefix := "sk-"
  const GeminiInputPrefix := "AI"
  const GroqInputPrefix := "gsk_"

  /** What the key field did. */
  datatype KeyStatus = NotPrompted | Blank | KeySet(variable: string) | InvalidFormat

  /** The key field is only offered when none of the three keys is set. */
  predicate NoKeyConfigured(env: Env) {
    !IsSet(env, OpenAIKey) && !IsSet(env, GoogleKey) && !IsSet(env, GroqKey)
  }

  /** The variable a typed key goes to, by prefix, first match wins; none for any other key. */
  function KeyVariable(input: string): (v: Option<string>)
    ensures StartsWith(input, OpenAIInputPrefix) ==> v == Some(OpenAIKey)
    ensures StartsWith(input, GeminiInputPrefix) ==> v == Some(GoogleKey)
    ensures StartsWith(input, GroqInputPrefix) ==> v == Some(GroqKey)
    ensures v.None? <==>
      !StartsWith(input, OpenAIInputPrefix) && !StartsWith(input, GeminiInputPrefix) && !StartsWith(input, GroqInputPrefix)
  {
    DistinctPrefixes(input, OpenAIInputPrefix, GeminiInputPrefix);
    DistinctPrefixes(input, OpenAIInputPrefix, GroqInputPrefix);
    DistinctPrefixes(input, GeminiInputPrefix, GroqInputPrefix);
    if StartsWith(input, OpenAIInputPrefix) then Some(OpenAIKey)
    else if StartsWith(input, GeminiInputPrefix) then Some(GoogleKey)
    else if StartsWith(input, GroqInputPrefix) then Some(GroqKey)
    else None
  }

  /**
   * A key typed into an environment without keys makes generation select
   * the matching backend. Embedding selection follows for OpenAI and Gemini
   * keys, but a Groq key leaves the store without an embedding function.
   */
  lemma TypedKeySelectsProvider(env: Env, input: string)
    requires NoKeyConfigured(env) && KeyVariable(input).Some?
    ensures var env' := env[KeyVariable(input).value := input];
      && (StartsWith(input, OpenAIInputPrefix) ==>
            Llm.GetLlm(env').Ok? && Llm.GetLlm(env').value.provider == Llm.OpenAI &&
            Store.GetEmbeddings(env').Ok? && Store.GetEmbeddings(env').value.OpenAIEmbeddings?)
      && (StartsWith(input, GeminiInputPrefix) ==>
            Llm.GetLlm(env').Ok? && Llm.GetLlm(env').value.provider == Llm.Gemini &&
            Store.GetEmbeddings(env').Ok? && Store.GetEmbeddings(env').value.GoogleEmbeddings?)
      && (StartsWith(input, GroqInputPrefix) ==>
            Llm.GetLlm(env').Ok? && Llm.GetLlm(env').value.provider == Llm.Groq &&
            Store.GetEmbeddings(env').Err?)
  {
  }

  /** The process environment the sidebar writes. */
  class ProcessEnvironment {
    var vars: Env

    constructor (vars: Env)
      ensures this.vars == vars
    {
      this.vars := vars;
    }

    /**
     * The sidebar key field: offered only when no key is set; a non-empty
     * key sets the one variable its prefix selects, any other key is
     * reported as invalid and changes nothing.
     */
    method EnterApiKey(input: string) returns (status: KeyStatus)
      modifies this
      ensures !NoKeyConfigured(old(vars)) ==> status == NotPrompted && vars == old(vars)
      ensures NoKeyConfigured(old(vars)) && input == "" ==> status == Blank && vars == old(vars)
      ensures NoKeyConfigured(old(vars)) && input != "" ==>
        match KeyVariable(input)
        case Some(v) => status == KeySet(v) && vars == old(vars)[v := input]
        case None => status == InvalidFormat && vars == old(vars)
    {
      if !NoKeyConfigured(vars) {
        return NotPrompted;
      }
      if input == "" {
        return Blank;
      }
      var target := KeyVariable(input);
      if target.None? {
        return InvalidFormat;
      }
      vars := vars[target.value := input];
      status := KeySet(target.value);
    }
  }
}
