/**
 * The solver stage (`SolverAgent`): builds a retrieval query, gathers an
 * optional similar past problem and the knowledge-base context (both
 * fail-soft), merges them memory-first, cites knowledge sources only, and
 * asks the generator for a solution. `Learn` commits an accepted solution
 * to memory and reports success as a boolean.
 */
module Solver {
  import opened Wrappers
  import opened Strings
  import opened Parser
  import Store

  const QuerySeparator := ": "
  const MemoryHeader := "\n[SIMILAR PAST PROBLEM]:\n"
  const KnowledgeHeader := "\n\n[KNOWLEDGE BASE]:\n"
  const RetrievalErrorContext := "No context available (Retrieval Error)."
  const DocSeparator := "\n\n"
  const ConstraintSeparator := ", "
  const UnknownSource := "unknown"
  const MemoryK := 1
  const KnowledgeK := 2

  /** A retrieval call: query and k to the documents found, or the error raised. */
  type Retriever = (string, nat) -> Result<seq<Store.Doc>>

  /** The knowledge-base part of the context and the citations that go with it. */
  datatype Knowledge = Knowledge(context: string, citations: seq<string>)

  /** The three inputs of the generation prompt. */
  datatype SolverPrompt = SolverPrompt(context: string, problem: string, constraints: string)

  /** What `solve` returns. */
  datatype SolveResult = SolveResult(solution: string, contextUsed: string, citations: seq<string>)

  /** `problem_data.get(field, "")` on the problem text. */
  function ProblemText(spec: ProblemSpec): string {
    spec.problemText.GetOr("")
  }

  /** The retrieval query: the topic, a colon and a space, then the problem text. */
  function Query(spec: ProblemSpec): (q: string)
    ensures StartsWith(q, spec.topic.GetOr(""))
    ensures OccursAt(q, QuerySeparator, |spec.topic.GetOr("")|)
    ensures |q| == |spec.topic.GetOr("")| + |QuerySeparator| + |ProblemText(spec)|
    ensures q[|spec.topic.GetOr("")| + |QuerySeparator|..] == ProblemText(spec)
  {
    var topic := spec.topic.GetOr("");
    var q := topic + QuerySeparator + ProblemText(spec);
    assert q[|topic|..|topic| + |QuerySeparator|] == QuerySeparator;
    q
  }

  /**
   * The memory block: empty when memory retrieval failed or found nothing,
   * otherwise the first document's content under its header, newline-ended.
   */
  function MemoryContext(found: Result<seq<Store.Doc>>): (c: string)
    ensures c == "" <==> found.Err? || found.value == []
    ensures found.Ok? && found.value != [] ==>
      && StartsWith(c, MemoryHeader)
      && OccursAt(c, found.value[0].content, |MemoryHeader|)
      && |c| == |MemoryHeader| + |found.value[0].content| + 1
      && c[|c| - 1] == '\n'
  {
    match found
    case Err(_) => ""
    case Ok(docs) =>
      if docs == [] then ""
      else
        var c := MemoryHeader + docs[0].content + "\n";
        assert c[|MemoryHeader|..|MemoryHeader| + |docs[0].content|] == docs[0].content;
        c
  }

  /** `d.metadata.get("source", "unknown")`. */
  function SourceOf(d: Store.Doc): string {
    if "source" in d.metadata then d.metadata["source"] else UnknownSource
  }

  /** The page contents of the documents, in order. */
  function Contents(docs: seq<Store.Doc>): seq<string>
  {
    seq(|docs|, i requires 0 <= i < |docs| => docs[i].content)
  }

  /** The source of each document, in order. */
  function Citations(docs: seq<Store.Doc>): seq<string>
  {
    seq(|docs|, i requires 0 <= i < |docs| => SourceOf(docs[i]))
  }

  /**
   * The knowledge block and citations: on failure a fixed placeholder and no
   * citations; otherwise every document's content in order, separated by a
   * blank line, and one citation per document, in the same order.
   */
  function KnowledgeContext(found: Result<seq<Store.Doc>>): (kb: Knowledge)
    ensures found.Err? ==> kb == Knowledge(RetrievalErrorContext, [])
    ensures found.Ok? ==> |kb.citations| == |found.value|
    ensures found.Ok? ==> forall i :: 0 <= i < |found.value| ==> kb.citations[i] == SourceOf(found.value[i])
    ensures found.Ok? ==> forall c :: c in kb.citations ==> exists d :: d in found.value && SourceOf(d) == c
    ensures found.Ok? ==> forall i :: 0 <= i < |found.value| ==>
      OccursAt(kb.context, found.value[i].content, JoinOffset(DocSeparator, Contents(found.value), i))
    ensures found.Ok? ==> forall i :: 0 <= i < |found.value| - 1 ==>
      OccursAt(kb.context, DocSeparator, JoinOffset(DocSeparator, Contents(found.value), i) + |found.value[i].content|)
    ensures found.Ok? && found.value != [] ==>
      JoinOffset(DocSeparator, Contents(found.value), |found.value| - 1) + |found.value[|found.value| - 1].content|
        == |kb.context|
    ensures found.Ok? && found.value == [] ==> kb.context == ""
  {
    match found
    case Err(_) => Knowledge(RetrievalErrorContext, [])
    case Ok(docs) =>
      JoinLayoutAll(DocSeparator, Contents(docs));
      Knowledge(Join(DocSeparator, Contents(docs)), Citations(docs))
  }

  /** The merged context: the memory block, then the knowledge header, then the knowledge block. */
  function FullContext(memoryContext: string, knowledgeContext: string): (full: string)
    ensures StartsWith(full, memoryContext)
    ensures OccursAt(full, KnowledgeHeader, |memoryContext|)
    ensures full[|memoryContext| + |KnowledgeHeader|..] == knowledgeContext
  {
    var full := memoryContext + KnowledgeHeader + knowledgeContext;
    assert full[|memoryContext|..|memoryContext| + |KnowledgeHeader|] == KnowledgeHeader;
    full
  }

  /** The constraint list joined by ", ", empty when there are none. */
  function ConstraintsText(spec: ProblemSpec): (text: string)
    ensures spec.constraints.GetOr([]) == [] ==> text == ""
    ensures |spec.constraints.GetOr([])| == 1 ==> text == spec.constraints.value[0]
    ensures var cs := spec.constraints.GetOr([]);
      forall i :: 0 <= i < |cs| ==> OccursAt(text, cs[i], JoinOffset(ConstraintSeparator, cs, i))
    ensures var cs := spec.constraints.GetOr([]);
      forall i :: 0 <= i < |cs| - 1 ==> OccursAt(text, ConstraintSeparator, JoinOffset(ConstraintSeparator, cs, i) + |cs[i]|)
    ensures var cs := spec.constraints.GetOr([]);
      cs != [] ==> JoinOffset(ConstraintSeparator, cs, |cs| - 1) + |cs[|cs| - 1]| == |text|
  {
    var cs := spec.constraints.GetOr([]);
    JoinLayoutAll(ConstraintSeparator, cs);
    Join(ConstraintSeparator, cs)
  }

  /**
   * The prompt `solve` generates from: memory is asked for the query with
   * k = 1, the knowledge base with k = 2.
   */
  function PromptFor(spec: ProblemSpec, retrieveMemory: Retriever, retrieve: Retriever): (p: SolverPrompt)
    ensures p.problem == ProblemText(spec) && p.constraints == ConstraintsText(spec)
    ensures var memory := MemoryContext(retrieveMemory(Query(spec), MemoryK));
      && StartsWith(p.context, memory)
      && OccursAt(p.context, KnowledgeHeader, |memory|)
      && p.context[|memory| + |KnowledgeHeader|..] == KnowledgeContext(retrieve(Query(spec), KnowledgeK)).context
  {
    var query := Query(spec);
    var memory := MemoryContext(retrieveMemory(query, MemoryK));
    var knowledge := KnowledgeContext(retrieve(query, KnowledgeK));
    SolverPrompt(FullContext(memory, knowledge.context), ProblemText(spec), ConstraintsText(spec))
  }

  /**
   * `solve(problem_data)`. Retrieval failures are absorbed; only a failure of
   * the generation call makes `solve` fail. The result records exactly the
   * context the generator saw and the knowledge citations.
   */
  function Solve(spec: ProblemSpec, retrieveMemory: Retriever, retrieve: Retriever,
                 generate: SolverPrompt -> Result<string>): (r: Result<SolveResult>)
    ensures var p := PromptFor(spec, retrieveMemory, retrieve);
      && (r.Ok? <==> generate(p).Ok?)
      && (r.Err? ==> r.error == generate(p).error)
      && (r.Ok? ==> r.value.solution == generate(p).value && r.value.contextUsed == p.context)
    ensures r.Ok? ==> r.value.citations == KnowledgeContext(retrieve(Query(spec), KnowledgeK)).citations
  {
    var prompt := PromptFor(spec, retrieveMemory, retrieve);
    var knowledge := KnowledgeContext(retrieve(Query(spec), KnowledgeK));
    match generate(prompt)
    case Err(e) => Err(e)
    case Ok(solution) => Ok(SolveResult(solution, prompt.context, knowledge.citations))
  }

  /** Citations come from the knowledge retrieval alone: memory never changes them. */
  lemma CitationsIgnoreMemory(spec: ProblemSpec, memoryA: Retriever, memoryB: Retriever, retrieve: Retriever,
                              generateA: SolverPrompt -> Result<string>, generateB: SolverPrompt -> Result<string>)
    requires Solve(spec, memoryA, retrieve, generateA).Ok? && Solve(spec, memoryB, retrieve, generateB).Ok?
    ensures Solve(spec, memoryA, retrieve, generateA).value.citations ==
            Solve(spec, memoryB, retrieve, generateB).value.citations
  {
  }

  /**
   * Every citation names the source of a document the knowledge retrieval
   * returned, and there are exactly as many citations as documents; a failed
   * knowledge retrieval leaves no citations and the placeholder context.
   */
  lemma CitationsAreKnowledgeSources(spec: ProblemSpec, retrieveMemory: Retriever, retrieve: Retriever,
                                     generate: SolverPrompt -> Result<string>)
    requires Solve(spec, retrieveMemory, retrieve, generate).Ok?
    ensures var r := Solve(spec, retrieveMemory, retrieve, generate).value;
      var found := retrieve(Query(spec), KnowledgeK);
      && (found.Err? ==> r.citations == [] && EndsWith(r.contextUsed, RetrievalErrorContext))
      && (found.Ok? ==> |r.citations| == |found.value|)
      && (found.Ok? ==> forall c :: c in r.citations ==> exists d :: d in found.value && SourceOf(d) == c)
  {
  }

  /**
   * With both collections empty the solver still produces a result when the
   * generator answers: no citations, no memory block, and an empty knowledge
   * block (the placeholder is reserved for a retrieval that raised).
   */
  lemma EmptyCollectionsStillSolve(spec: ProblemSpec, generate: SolverPrompt -> Result<string>)
    requires forall p :: generate(p).Ok?
    ensures var r := Solve(spec, (q, k) => Ok([]), (q, k) => Ok([]), generate);
      r.Ok? && r.value.citations == [] && r.value.contextUsed == KnowledgeHeader
  {
  }

  class SolverAgent {
    const rag: Store.RAGStore

    constructor (rag: Store.RAGStore)
      ensures this.rag == rag
    {
      this.rag := rag;
    }

    /**
     * `learn`: stores the accepted problem and solution in memory. It never
     * fails: a storage error (`fault`) yields false and leaves the store as it was.
     */
    method Learn(problemText: string, solutionText: string, topic: string, fault: Option<string>)
      returns (ok: bool)
      modifies rag
      ensures ok <==> fault.None?
      ensures rag.knowledge == old(rag.knowledge)
      ensures rag.memory == if ok then old(rag.memory) + [Store.MemoryRecord(problemText, solutionText, topic)]
                            else old(rag.memory)
    {
      var outcome := rag.AddToMemory(problemText, solutionText, topic, fault);
      ok := outcome.Pass?;
    }
  }
}
