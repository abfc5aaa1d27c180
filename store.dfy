/**
 * The dual-collection store (`RAGStore`): a static knowledge collection and an
 * append-only memory collection that share one embedding function. Similarity
 * ranking is an external oracle; the model keeps what retrieval promises
 * whatever the ranking: at most k members of the collection searched.
 */
module Store {
  import opened Wrappers
  import opened Strings
  import opened Environment

  /** A stored document: its text and its metadata (`source`, `topic`, ...). */
  datatype Doc = Doc(content: string, metadata: map<string, string>)

  /** The embedding function a store is built with. */
  datatype Embeddings = OpenAIEmbeddings(model: string) | GoogleEmbeddings(model: string)

  const OpenAIEmbeddingModel := "text-embedding-3-small"
  const GoogleEmbeddingModel := "models/embedding-001"
  const NoEmbeddingKeyError := "No API Key for Embeddings"

  const KnowledgeCollection := "math_knowledge"
  const MemoryCollection := "math_memory"

  const MemorySource := "user_memory"
  const ProblemLabel := "Problem: "
  const SolutionLabel := "\nSolution: "

  /**
   * The similarity search of the vector store: for an embedding function, a
   * query and a collection, the collection's indices from most to least
   * similar, or the error the embedding call raised.
   */
  type Similarity = (Embeddings, string, seq<Doc>) -> Result<seq<nat>>

  /**
   * Embedding selection: OpenAI when its key is set (any form), else Google,
   * else a configuration error. The Groq key plays no part.
   */
  function GetEmbeddings(env: Env): (r: Result<Embeddings>)
    ensures (r.Ok? && r.value == OpenAIEmbeddings(OpenAIEmbeddingModel)) <==> IsSet(env, OpenAIKey)
    ensures (r.Ok? && r.value == GoogleEmbeddings(GoogleEmbeddingModel)) <==>
      !IsSet(env, OpenAIKey) && IsSet(env, GoogleKey)
    ensures r.Err? <==> !IsSet(env, OpenAIKey) && !IsSet(env, GoogleKey)
    ensures r.Err? ==> r.error == NoEmbeddingKeyError
  {
    if IsSet(env, OpenAIKey) then Ok(OpenAIEmbeddings(OpenAIEmbeddingModel))
    else if IsSet(env, GoogleKey) then Ok(GoogleEmbeddings(GoogleEmbeddingModel))
    else Err(NoEmbeddingKeyError)
  }

  /** An environment holding only a Groq key can generate text but cannot embed. */
  lemma GroqOnlyHasNoEmbeddings(key: string)
    requires key != ""
    ensures GetEmbeddings(map[GroqKey := key]).Err?
  {
  }

  /** The ranking names at least one document that exists in the collection. */
  predicate NamesMember(coll: seq<Doc>, ranking: seq<nat>) {
    exists i :: 0 <= i < |ranking| && ranking[i] < |coll|
  }

  /**
   * The first `k` documents the ranking names that exist in the collection,
   * in ranking order.
   */
  function TopK(coll: seq<Doc>, ranking: seq<nat>, k: nat): (r: seq<Doc>)
    ensures |r| <= k && |r| <= |ranking|
    ensures forall d :: d in r ==> d in coll
    ensures coll == [] ==> r == []
    ensures k > 0 && NamesMember(coll, ranking) ==> r != []
    decreases |ranking|
  {
    if k == 0 || ranking == [] then []
    else if ranking[0] < |coll| then [coll[ranking[0]]] + TopK(coll, ranking[1..], k - 1)
    else
      assert forall i :: 1 <= i < |ranking| ==> ranking[i] == ranking[1..][i - 1];
      TopK(coll, ranking[1..], k)
  }

  /** The record `add_to_memory` stores for a solved problem. */
  function MemoryRecord(problemText: string, solutionText: string, topic: string): (d: Doc)
    ensures StartsWith(d.content, ProblemLabel)
    ensures OccursAt(d.content, problemText, |ProblemLabel|)
    ensures OccursAt(d.content, SolutionLabel, |ProblemLabel| + |problemText|)
    ensures OccursAt(d.content, solutionText, |ProblemLabel| + |problemText| + |SolutionLabel|)
    ensures |d.content| == |ProblemLabel| + |problemText| + |SolutionLabel| + |solutionText|
    ensures d.metadata.Keys == {"source", "topic"}
    ensures d.metadata["source"] == MemorySource && d.metadata["topic"] == topic
  {
    var content := ProblemLabel + problemText + SolutionLabel + solutionText;
    assert content[|ProblemLabel|..|ProblemLabel| + |problemText|] == problemText;
    assert content[|ProblemLabel| + |problemText|..|ProblemLabel| + |problemText| + |SolutionLabel|] == SolutionLabel;
    Doc(content, map["source" := MemorySource, "topic" := topic])
  }

  class RAGStore {
    /** The one embedding function both collections use. */
    const embeddings: Embeddings
    const knowledgeName: string
    const memoryName: string
    /** The documents of the knowledge collection (`vectorstore`). */
    var knowledge: seq<Doc>
    /** The documents of the memory collection (`memory_store`). */
    var memory: seq<Doc>

    /**
     * Opens both collections under one persistence root with one embedding
     * function; each starts with what is already persisted under its name.
     */
    constructor (embeddings: Embeddings, persistedKnowledge: seq<Doc>, persistedMemory: seq<Doc>)
      ensures this.embeddings == embeddings
      ensures knowledgeName == KnowledgeCollection && memoryName == MemoryCollection
      ensures knowledge == persistedKnowledge && memory == persistedMemory
    {
      this.embeddings := embeddings;
      knowledgeName := KnowledgeCollection;
      memoryName := MemoryCollection;
      knowledge := persistedKnowledge;
      memory := persistedMemory;
    }

    /**
     * Appends documents to the knowledge collection. `fault` is the error the
     * embedding call raises, if any; then nothing is stored.
     */
    method AddDocuments(docs: seq<Doc>, fault: Option<string>) returns (outcome: Outcome)
      modifies this
      ensures outcome == (if fault.Some? then Fail(fault.value) else Pass)
      ensures knowledge == (if outcome.Pass? then old(knowledge) + docs else old(knowledge))
      ensures memory == old(memory)
    {
      if fault.Some? {
        return Fail(fault.value);
      }
      knowledge := knowledge + docs;
      outcome := Pass;
    }

    /** Similarity search over the knowledge collection (default k = 3). */
    method Retrieve(query: string, similarity: Similarity, k: nat := 3) returns (found: Result<seq<Doc>>)
      ensures found.Err? <==> similarity(embeddings, query, knowledge).Err?
      ensures found.Ok? ==> |found.value| <= k
      ensures found.Ok? ==> forall d :: d in found.value ==> d in knowledge
      ensures found.Ok? && k > 0 && NamesMember(knowledge, similarity(embeddings, query, knowledge).value) ==>
        found.value != []
    {
      var ranked := similarity(embeddings, query, knowledge);
      if ranked.Err? {
        return Err(ranked.error);
      }
      found := Ok(TopK(knowledge, ranked.value, k));
    }

    /**
     * Appends exactly one composed record to the memory collection. `fault`
     * is the error the embedding call raises, if any; then nothing is stored.
     */
    method AddToMemory(problemText: string, solutionText: string, topic: string, fault: Option<string>)
      returns (outcome: Outcome)
      modifies this
      ensures outcome == (if fault.Some? then Fail(fault.value) else Pass)
      ensures memory == if outcome.Pass? then old(memory) + [MemoryRecord(problemText, solutionText, topic)]
                        else old(memory)
      ensures knowledge == old(knowledge)
    {
      if fault.Some? {
        return Fail(fault.value);
      }
      memory := memory + [MemoryRecord(problemText, solutionText, topic)];
      outcome := Pass;
    }

    /** Similarity search over the memory collection (default k = 1). */
    method RetrieveMemory(query: string, similarity: Similarity, k: nat := 1) returns (found: Result<seq<Doc>>)
      ensures found.Err? <==> similarity(embeddings, query, memory).Err?
      ensures found.Ok? ==> |found.value| <= k
      ensures found.Ok? ==> forall d :: d in found.value ==> d in memory
      ensures found.Ok? && memory == [] ==> found.value == []
      ensures found.Ok? && k > 0 && NamesMember(memory, similarity(embeddings, query, memory).value) ==>
        found.value != []
    {
      var ranked := similarity(embeddings, query, memory);
      if ranked.Err? {
        return Err(ranked.error);
      }
      found := Ok(TopK(memory, ranked.value, k));
    }
  }

  /**
   * `RAGStore()`: selects the embedding function from the environment and
   * fails, before opening any collection, when there is none.
   */
  method OpenStore(env: Env, persistedKnowledge: seq<Doc>, persistedMemory: seq<Doc>)
    returns (r: Result<RAGStore>)
    ensures r.Err? <==> GetEmbeddings(env).Err?
    ensures r.Err? ==> r.error == NoEmbeddingKeyError
    ensures r.Ok? ==> fresh(r.value) && r.value.embeddings == GetEmbeddings(env).value
    ensures r.Ok? ==> r.value.knowledge == persistedKnowledge && r.value.memory == persistedMemory
  {
    var embeddings := GetEmbeddings(env);
    if embeddings.Err? {
      return Err(embeddings.error);
    }
    var store := new RAGStore(embeddings.value, persistedKnowledge, persistedMemory);
    r := Ok(store);
  }
}
