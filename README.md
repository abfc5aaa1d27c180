# Multimodal Math Mentor — control logic model

A Dafny model of the deterministic control logic of the Multimodal Math Mentor:
the five-stage solving pipeline with its clarification exit and confidence gate,
the solver's retrieval-context assembly and its learning entry point, the
parser's failure fallback, the dual-collection store (knowledge and memory),
and the provider-selection and API-key dispatch rules.

Every call to a language model and every similarity search is an external call
whose content cannot be modelled. Each one is a function parameter (an oracle)
that gives back `Ok(value)` or `Err(message)`: `Err` stands for the Python
exception that call raises. What is proved is everything the surrounding code
decides by itself, for every answer the oracles could give.

Modules, one per source file:

- `Wrappers`: `Option`, `Result`, `Outcome`.
- `Strings`: prefix tests, positions, and `Join` (Python's `str.join`) with its layout lemma.
- `Environment`: the environment map and `os.getenv` truthiness (`IsSet`: present and non-empty).
- `Llm` (`src/agents/llm.py`): generation provider selection.
- `Store` (`src/rag/store.py`): embedding selection and the `RAGStore` class. Its two `seq<Doc>` fields are appended to in place.
- `Parser` (`src/agents/parser.py`): the problem record and the total `Parse`.
- `Solver` (`src/agents/solver.py`): query, context merge, citations, constraints, `Solve`, and `SolverAgent.Learn`.
- `App` (`app.py`): the pipeline as a specification function (`PipelineRun`), and `Session.RunSolverPipeline`, an imperative method proved equal to it that also writes the session's `currentProblemData`. It also holds the sidebar key dispatch (`ProcessEnvironment.EnterApiKey`).

A pipeline run returns its result together with the list of stage calls it made, with their arguments.
That list is how the model states which stages run on each path.
`run_solver_pipeline` returns three result shapes. A fourth, `Raised`, stands for an exception that escapes it:
- a raising router, solver, verifier or explainer;
- the `KeyError` of `parsed["problem_text"]` (app.py:140) when the parsed record has no problem text.

Behaviour the model takes from the code as written:
- With an empty knowledge collection the knowledge context is the empty string. The placeholder "No context available (Retrieval Error)." appears only when retrieval raises (`Solver.EmptyCollectionsStillSolve`).
- The clarification result carries the whole parsed record as `data`.
- The verification-failure result also carries the whole solver result.
- A record that the structuring call returns with `needs_clarification` set but no question is passed through unchanged. Only the fallback record is guaranteed a non-empty question (`Parser.Parse`, `WellFormed`).
- Embedding selection accepts an OpenAI key of any form. Generation needs the `sk-` prefix.

## Model

| member | source | states |
|---|---|---|
| `Llm.GetLlm` | src/agents/llm.py:10-29 | Groq is chosen whenever its key is set. OpenAI is chosen exactly when there is no Groq key and the OpenAI key starts with `sk-`. Gemini is chosen exactly when neither applies and the Google key is set. Otherwise selection fails with the configuration error. Every choice has temperature 0 and its fixed model name. |
| `Llm.GroqTakesPriority` | src/agents/llm.py:19-20 | With a Groq key set, changing the OpenAI and Google keys never changes the selection. |
| `Llm.MalformedOpenAIKeyFallsThrough` | src/agents/llm.py:21-25 | An OpenAI key without the `sk-` prefix is skipped, and a set Google key then selects Gemini. |
| `Store.GetEmbeddings` | src/rag/store.py:11-17 | The OpenAI embedding is chosen exactly when the OpenAI key is set. The Google embedding is chosen exactly when only the Google key is set. Otherwise selection fails with "No API Key for Embeddings". |
| `Store.GroqOnlyHasNoEmbeddings` | src/rag/store.py:11-17 | An environment holding only a Groq key has no embedding function. |
| `Store.TopK` | src/rag/store.py:40-52 | The search result has at most k documents, no more than the ranking names, and all of them are members of the searched collection. It is empty for an empty collection, and non-empty when k > 0 and the ranking names an existing document. |
| `Store.MemoryRecord` | src/rag/store.py:43-48 | The memory record's content is "Problem: ", the problem text, "\nSolution: ", then the solution text, laid out position by position. Its metadata is exactly `{source: "user_memory", topic}`. |
| `Store.RAGStore.constructor` | src/rag/store.py:20-32 | One embedding function for both collections. The collections are named `math_knowledge` and `math_memory`. Each starts with what is persisted under its name. |
| `Store.OpenStore` | src/rag/store.py:20-21 | Building the store fails exactly when embedding selection fails. Otherwise the fresh store uses the selected embedding. |
| `Store.RAGStore.AddDocuments` | src/rag/store.py:34-38 | On success the documents are appended to the knowledge collection. On failure nothing changes. The memory collection never changes. |
| `Store.RAGStore.Retrieve` | src/rag/store.py:40-41 | Knowledge search (default k = 3) with the store's embedding. It fails exactly when the similarity call fails. Otherwise it returns at most k members of the knowledge collection, and a non-empty result when k > 0 and the ranking names an existing document. |
| `Store.RAGStore.AddToMemory` | src/rag/store.py:43-49 | On success exactly one record, `MemoryRecord(p, s, topic)`, is appended to memory. On failure nothing changes. The knowledge collection never changes. |
| `Store.RAGStore.RetrieveMemory` | src/rag/store.py:51-52 | Memory search (default k = 1) with the store's embedding. It fails exactly when the similarity call fails. Otherwise it returns at most k members of the memory collection: nothing from an empty memory, and a non-empty result when k > 0 and the ranking names an existing record. |
| `Parser.FailureQuestion` | src/agents/parser.py:52 | The fallback question is non-empty, starts with "Parsing failed. Error: " and contains the error message right after it. |
| `Parser.Parse` | src/agents/parser.py:42-56 | A successful structuring call's record is returned unchanged. Any failure yields `needs_clarification = true` with the input text as `problem_text`, topic "Unknown", no subtopic, and empty variables and constraints. The question contains the error message. The fallback always satisfies "clarification implies a non-empty question". |
| `Strings.JoinLayout` | src/agents/solver.py:57-69 | `sep.join(parts)` holds each part verbatim at its offset. The separator follows every part but the last, and the last part ends the string. |
| `Solver.Query` | src/agents/solver.py:40-44 | The query is the topic, then ": ", then the problem text. A missing field reads as the empty string. |
| `Solver.MemoryContext` | src/agents/solver.py:46-53 | The memory block is empty exactly when memory retrieval raised or found nothing. Otherwise it is the "[SIMILAR PAST PROBLEM]" header, then the first document's content, then a newline. |
| `Solver.KnowledgeContext` | src/agents/solver.py:55-61 | When retrieval raised: the placeholder context and no citations. Otherwise the context is the documents' contents joined by a blank line: each content at its offset, "\n\n" between consecutive contents, and the last content ending the context (empty for no documents). There is one citation per document, in order: its `source` metadata, or "unknown". Every citation names a retrieved document's source. |
| `Solver.FullContext` | src/agents/solver.py:63-64 | The merged context starts with the memory block. The "[KNOWLEDGE BASE]" header follows it, and the knowledge block is the rest. |
| `Solver.ConstraintsText` | src/agents/solver.py:69 | The constraints string is empty when constraints are absent or empty, and is the single constraint when there is one. Otherwise each constraint appears verbatim at its offset, ", " sits between consecutive constraints, and the last constraint ends the string. |
| `Solver.PromptFor` | src/agents/solver.py:38-70 | The generator gets the problem text, the constraints string, and the merged context. Memory is retrieved for the query with k = 1 and knowledge with k = 2. |
| `Solver.Solve` | src/agents/solver.py:38-76 | Solving fails only when generation fails, never because of retrieval. On success `solution` is the generator's answer, `context_used` is exactly the context the generator received, and `citations` are the knowledge citations. |
| `Solver.CitationsIgnoreMemory` | src/agents/solver.py:47-58 | Two solves that differ only in the memory retrieval or the generator give the same citations. |
| `Solver.CitationsAreKnowledgeSources` | src/agents/solver.py:55-61 | A failed knowledge retrieval gives no citations and a context that ends in the placeholder. Otherwise there is one citation per retrieved document, and each names one of their sources. |
| `Solver.EmptyCollectionsStillSolve` | src/agents/solver.py:47-76 | With both collections empty and the generator answering, solving succeeds. It has no citations, and its context is the knowledge header alone. |
| `Solver.SolverAgent.Learn` | src/agents/solver.py:78-84 | `learn` returns true exactly when storing succeeds, and never fails. On success memory gains exactly the composed record. On failure memory is unchanged. Knowledge never changes. |
| `App.PipelineRun` | app.py:113-162 | Parsing is always the first call. The result is a clarification exactly when the parsed record asks for one: it then carries that record, and no other stage was called. Every other run calls the router second. A success passed the gate and made exactly the five calls parse, route, solve, verify and explain. A verification failure failed the gate and made the first four of those calls. Only a success (or a raise during explanation) ever calls the explainer. |
| `App.GateDecidesOutcome` | app.py:142-162 | In a run that reaches the gate, the result is a verification failure exactly when it is not the case that `is_correct` holds and confidence is at least 0.8. When the gate passes, the run succeeds exactly when the explainer answers. |
| `App.RaisingStageEndsRun` | app.py:119-140 | After parsing, a raising router ends the run with its error after the parse and route calls. A raising solver does the same after the solve call. A record without a problem text raises the `KeyError` after the solve call. |
| `App.RaisingJudgeEndsRun` | app.py:140-153 | A raising verifier ends the run with its error after the verify call. When the gate passes, a raising explainer ends the run with its error after the explain call. |
| `App.GateBoundary` | app.py:142 | Confidence exactly 0.8 passes. 0.7999 fails, and so does 0.55 even when the verifier says correct. An incorrect verdict fails at confidence 1.0. |
| `App.PayloadsCarryStageResults` | app.py:140-162 | A failure carries the solver's solution, the verifier's record unchanged, and the whole solver result. A success carries the solver's solution, the explainer's text, the verifier's record and the solver's citations. Verifier and explainer receive the parsed problem text and the solution. The explainer gets no citations. |
| `App.RouterIsAdvisory` | app.py:128-131 | Any two answering routers give the same result and the same calls. |
| `App.ParseFailureStopsAtClarification` | app.py:119-123 | A failing structuring call ends the run at clarification after the parse call alone. The degraded record there holds the input text and the error message. |
| `App.SuccessCitationsFromKnowledge` | app.py:135-161 | Take a solver stage built from `Solver.Solve`. Every citation of a successful run then names the source of a document that the knowledge retrieval returned for the run's query. |
| `App.Session.RunSolverPipeline` | app.py:113-162 | The step-by-step run equals `PipelineRun` in both result and calls. `currentProblemData` becomes the parsed record exactly when parsing did not ask for clarification. Otherwise it is unchanged. |
| `App.KeyVariable` | app.py:181-192 | A key starting `sk-` goes to OPENAI_API_KEY, `AI` to GOOGLE_API_KEY and `gsk_` to GROQ_API_KEY. No variable is chosen exactly when none of the three prefixes matches. |
| `App.ProcessEnvironment.EnterApiKey` | app.py:174-192 | The field is offered only when no key is set. A blank entry does nothing. A recognised key sets exactly its one variable, and nothing else changes. Any other key is reported as an invalid format and changes nothing. |
| `App.TypedKeySelectsProvider` | app.py:174-192 | A key typed into a keyless environment makes generation select the matching backend. OpenAI and Gemini keys also give an embedding function; a Groq key gives none. |

## Left out

- Content of generations and prompt templates (parser, router, solver, verifier and explainer): these are external model calls, so they are oracles returning `Ok` or `Err`.
- The router, verifier and explainer as components: each is one external call, so each is an oracle in `App.Agents`. The explainer's own code ignores its `citations` argument (src/agents/explainer.py:30-34). The model only records that the orchestrator passes none.
- App.PipelineRun, App.Verification: the verifier's answer is a complete record. In the source, an answer without `is_correct` raises `KeyError` at app.py:142. An answer without `confidence` raises only when `is_correct` is truthy; when it is falsy, `or` short-circuits and the source returns `verification_failed`. The model folds both cases into the verifier's `Err`, so the second one ends in `Raised` instead.
- App.Routing: a router answer lacking keys raises nothing, because app.py:131 reads it with `.get`. Only a router answer that is not a dictionary raises (`AttributeError`). The model cannot express a non-dictionary answer: every router answer is a `Routing` record, and `Err` stands only for a raising router call.
- Parser.Parse, App.PipelineRun: the structuring call's answer is not validated against its schema (src/agents/parser.py:19 uses the schema only for format instructions), but the model takes it to be a `ProblemSpec` record. An answer that is not a JSON object makes `parsed.get` raise `AttributeError` at app.py:121, before any other stage runs. A string `"needs_clarification": "false"` is truthy there and stops the run at clarification. The model's `needsClarification` is a real boolean, and neither case is captured.
- Solver.SolverAgent.Learn: the log line printed on a storage failure (src/agents/solver.py:83) is console output and is not modelled; only the `false` result is.
- App.GateRejects, App.PipelineRun: the verdict is taken to be a real boolean and a real number. The verifier's JSON is never validated against its schema (src/agents/verifier.py:15 uses the schema only for format instructions). So a string `"is_correct": "false"` is truthy at app.py:142 and leaves the decision to confidence alone, and a `NaN` confidence passes `not (c < 0.8)`. The model captures neither case.
- Solver.ConstraintsText, Solver.Solve: an explicit JSON `null` in the parsed record is read as an absent key. The source behaves differently. With `constraints: null`, `problem_data.get("constraints", [])` returns `None`, and `", ".join(None)` raises `TypeError` (src/agents/solver.py:69), so `solve` raises. The model gives the empty constraints string instead. A `null` topic or problem text is formatted as "None" in the query (src/agents/solver.py:44), but the model uses the empty string.
- App.PipelineRun, App.Session.RunSolverPipeline: with `problem_text: null`, app.py:140 passes `None` to the verifier and raises no `KeyError`. The model treats it as a missing key and ends the run with `Raised(MissingProblemText)`.
- Agent construction (`get_agents`, app.py:45-53): it refers to `SolverAgent` without importing it. The solver stage is therefore an abstract member of `App.Agents`, and the model assumes it is available. Agent construction and its process-wide caching are not modelled.
- Similarity ranking and embedding vectors: retrieval is specified only as "at most k members of the collection searched". The ranking is an oracle.
- Persistence of the collections to disk, and `as_retriever` (src/rag/store.py:54-55): disk I/O, and an adapter the core does not use.
- Store.RAGStore.AddDocuments, Store.RAGStore.AddToMemory: embedding and storage failures are one optional error message (`fault`). The model does not distinguish partial writes.
- Streamlit rendering, buttons, status widgets, and the feedback loop in `display_results` (app.py:57-111) that calls `learn`: these are UI.
- OCR and speech input (src/utils/ocr.py, src/utils/audio.py): external engines and floating point.
- Knowledge ingestion (bootstrapper.py) and the diagnostic scripts (test_groq.py, debug_api.py, check_models.py): offline file walking and network smoke tests.
- Concurrency between users sharing the store: the code has none of its own.
