# HugipAssistant turn pipeline, modelled in Dafny

HugipAssistant is a club assistant that answers questions about a university
entrepreneurship and marketing club. Each question runs through a small graph
that starts at a router. A language-model classifier picks a datasource:
retrieval ("rag"), web search or a direct answer. On the retrieval path the
retriever fetches documents from a vector index and the generator answers
from their context. The direct path answers from the question alone. The
web-search path returns a fixed notice, because no search backend is
configured. Beside the graph sit:

- a reflection step that grades an answer for hallucination, then approves
  it, regenerates it, or adds a disclaimer;
- a relevance grader that filters documents;
- a session-scoped conversation memory.

The project models this core. Every language-model, grader and vector-index
call is a function-typed parameter: an oracle whose answers the model does
not interpret.

- `builtins.dfy` (`Builtins`): the Python built-ins the core depends on:
  - slices `s[start:]`, including negative starts, as Python defines them;
  - `sep.join`, as Python defines it;
  - `needle in hay`, as Python defines it;
  - `str.lower` for ASCII, Latin-1, Latin Extended-A and the Kelvin, Angstrom
    and Ohm signs, including `İ` becoming `i` plus a combining dot.
- `state.dfy` (`State`): the turn state (`GraphState`), retrieved documents,
  the `Grade` both graders return, and `OnlyChanged`. `OnlyChanged` says which fields a
  `{**state, ...}` copy replaced.
- `memory_service.dfy` (`MemoryService`):
  - `ConversationMemory` is a class. Its field `sessions` maps a session id
    to a message log. `AddMessage` and `ClearSession` update the map in place
    and are tied to the specification function `AfterAdd`.
  - `GetContextString` and `ScanKeywords` are loops, proved against
    `Transcript` and `FirstTopic`. `GetLastTopic` calls `ScanKeywords` on
    the recent messages.
  - `Service` is the memory service's wrapper with its assistant-metadata
    rule.
- `reflection.dfy` (`Reflection`): the reflection step `Reflect`, and `Run`,
  which applies the step until approval or disclaimer.
- `graph.dfy` (`Graph`): the router dispatch, the edges,
  and a whole turn through the compiled graph.
- `relevance_grader.dfy` (`RelevanceGrader`): the filtering and reporting
  loops.
- `rag.dfy` (`Rag`), `generation.dfy` (`Generation`) and `router.dfy`
  (`Router`): the node functions.

The model follows the code, including where the repository's tests expect
more. `test_memory.py:35` and `test_memory.py:126-133` expect follow-up
questions to be answered from memory and the router to see the history.
`tests/test_reflection.py:22` and `tests/test_reflection.py:76-78` expect
reflection inside the graph. The code does neither:

- The router's classifier is given the question only, not the conversation
  memory.
- The reflection step is not wired into the graph. `generate_rag` goes
  straight to END, so `Graph.TurnOutcome` shows that a turn never changes
  the iteration count. `Reflection.Run` states the bound the reflection loop
  would have if it were driven.
- No follow-up query expansion happens.

The code's own edge cases are kept:

- `log[-0:]` in Python is the whole log. With `max_history == 0` nothing is
  ever trimmed (`MemoryService.ZeroCapacityNeverTrims`). The length bound
  (`ConversationMemory.Valid`) therefore holds for `max_history >= 1`.
- A negative `last_n` makes `get_history` drop that many messages from the
  front.
- A missing `iterations` key counts as 0.
- A document without a `source` is cited as `Unknown`.
- Any decision string other than "rag" and "web_search", the empty one
  included, goes to the direct node.

## Model

| member | source | states |
|---|---|---|
| `Builtins.SliceFrom` | src/services/memory_service.py:62-63 | Python's `s[start:]`: a negative start keeps the last `min(-start, len)` elements, and a non-negative start drops that many from the front |
| `Builtins.Contains` | src/services/memory_service.py:155 | the substring test is true exactly when the needle occurs at some index of the text |
| `Builtins.VerbatimOccurrenceMatchesLowered` | src/services/memory_service.py:155 | a keyword that occurs verbatim in the text is also found by the lower-cased comparison |
| `MemoryService.AfterAdd` | src/services/memory_service.py:41-63 | if the role and content repeat the last entry, the log is unchanged. Otherwise the message becomes the last entry, and the log is the most recent `min(len+1, max_history)` entries of the old log plus the message, so the oldest are evicted first. A log within the bound stays within it |
| `MemoryService.ZeroCapacityNeverTrims` | src/services/memory_service.py:62-63 | with `max_history == 0`, `[-0:]` keeps the whole log, so every new message is appended untrimmed |
| `MemoryService.AddTwiceStoresOnce` | src/services/memory_service.py:44-50 | adding the same role and content twice in a row stores it once |
| `MemoryService.ConversationMemory.constructor` | src/services/memory_service.py:16-23 | a new memory has no sessions and the given capacity, 10 when none is given |
| `MemoryService.ConversationMemory.AddMessage` | src/services/memory_service.py:25-63 | the session's log becomes `AfterAdd` of its old log, which is empty for an unknown session. The session then exists. Every other session's log is unchanged, and the length bound is preserved |
| `MemoryService.ConversationMemory.ClearSession` | src/services/memory_service.py:120-123 | removes exactly that session; an unknown id leaves the map unchanged, and every other session's log is unchanged |
| `MemoryService.Recent` | src/services/memory_service.py:85-88 | `None` or 0 gives the whole log. A positive `last_n` gives the last `min(last_n, len)` messages in order. A negative one drops `-last_n` messages from the front |
| `MemoryService.ConversationMemory.GetHistory` | src/services/memory_service.py:80-88 | an unknown session gives `[]`; otherwise the log windowed as `Recent` says |
| `MemoryService.Shorten` | src/services/memory_service.py:115 | content of at most 150 characters is kept whole. Longer content becomes its first 150 characters followed by "...", 153 characters in all |
| `MemoryService.ShortenIdempotent` | src/services/memory_service.py:115 | shortening an already shortened content changes nothing |
| `MemoryService.TranscriptEmptyIff` | src/services/memory_service.py:106-118 | the transcript is empty exactly when the history is empty |
| `MemoryService.TranscriptAppend` | src/services/memory_service.py:111-118 | the transcript of `xs + ys` is the transcript of `xs`, a newline, then the transcript of `ys`, so there is one line per message, in order |
| `MemoryService.ConversationMemory.GetContextString` | src/services/memory_service.py:90-118 | the result is the transcript of the windowed history, which is the last 6 messages when `last_n` is not given. Each line is labelled "Kullanıcı" for role `user` and "Asistan" for any other role, with the shortened content. The result is "" exactly when the window is empty |
| `MemoryService.FirstTopicNoneIff` | src/services/memory_service.py:154-158 | the keyword scan yields no topic exactly when no keyword occurs, case-insensitively, in the text |
| `MemoryService.FirstTopicPriority` | src/services/memory_service.py:142-156 | if keyword `i` occurs and no earlier keyword does, the scan yields keyword `i`'s topic, so list order is priority order |
| `MemoryService.ScanKeywords` | src/services/memory_service.py:154-158 | the loop over the keywords returns exactly the first-match topic `FirstTopic` |
| `MemoryService.MentionedKeywordGivesTopic` | src/services/memory_service.py:138-156 | once a keyword is mentioned verbatim in the last messages, a topic is found |
| `MemoryService.ConversationMemory.GetLastTopic` | src/services/memory_service.py:132-158 | with no history, the result is `None`. Otherwise it is the first-match topic over the lower-cased, space-joined contents of the last 6 messages |
| `MemoryService.AssistantMetadata` | src/services/memory_service.py:187-191 | the metadata holds "route" exactly when a non-empty route is given and "sources" exactly when a non-empty source list is given. Each holds that value, and there are no other keys |
| `MemoryService.Service.constructor` | src/services/memory_service.py:169-173 | the service owns a fresh, empty memory of capacity 10 |
| `MemoryService.Service.AddUserMessage` | src/services/memory_service.py:175-177 | stores a `user` message with empty metadata, as `AfterAdd` says |
| `MemoryService.Service.AddAssistantMessage` | src/services/memory_service.py:179-193 | stores an `assistant` message whose metadata is `AssistantMetadata(route, sources)` |
| `Rag.ContextEmptyIff` | src/graph/nodes/rag.py:76-79 | the context string is empty exactly when there are no documents |
| `Rag.ContextSingle` | src/graph/nodes/rag.py:76-79 | one document renders as `[Kaynak: <source or Unknown>]`, a newline, then its content |
| `Rag.ContextAppend` | src/graph/nodes/rag.py:76-79 | the context of `xs + ys` is the context of `xs`, the `---` separator, then the context of `ys`, so documents keep their order |
| `Rag.RetrieveNode` | src/graph/nodes/rag.py:26-33 | the documents become the retriever's result for the question, and no other field changes |
| `Rag.RetrieveIdempotent` | src/graph/nodes/rag.py:26-33 | retrieving again on the node's own output changes nothing |
| `Rag.GenerateRagNode` | src/graph/nodes/rag.py:76-91 | the generation becomes the model's answer on the documents' context and the question, and no other field changes |
| `Rag.GenerateRagReadsQuestionAndDocuments` | src/graph/nodes/rag.py:76-86 | states that agree on question and documents get the same generation |
| `Generation.DirectNode` | src/graph/nodes/generation.py:50-56 | the generation becomes the model's answer on the question alone, and no other field changes |
| `Generation.DirectReadsOnlyQuestion` | src/graph/nodes/generation.py:51 | states with the same question get the same direct answer |
| `Generation.WebSearchNode` | src/graph/nodes/generation.py:77-87 | the generation becomes the fixed notice and `web_results` becomes `["Web search not configured"]`. Question, documents, decision, iterations and session id are unchanged |
| `Generation.WebSearchIgnoresState` | src/graph/nodes/generation.py:77-86 | the web-search answer and results are the same for every state |
| `Router.DatasourceName` | src/graph/nodes/router.py:13 | a datasource is written as one of exactly "rag", "web_search" and "direct" |
| `Router.DatasourceNameInjective` | src/graph/nodes/router.py:13 | distinct datasources are written differently |
| `Router.RouterNode` | src/graph/nodes/router.py:75-81 | the decision becomes the classifier's datasource for the question, always one of the three names. No other field changes, and the reasoning is dropped |
| `Router.RoutingReadsOnlyQuestion` | src/graph/nodes/router.py:75-76 | states with the same question are routed alike, whatever their session |
| `Graph.RouteQuestion` | src/graph/graph.py:43-62 | "rag" maps to "retrieve" and "web_search" to "web_search". Every other decision maps to "direct", and each answer is a key of the conditional-edge table, so dispatch is total |
| `Graph.Next` | src/graph/graph.py:40-72 | every edge leads to a node of lower rank, so the graph has no cycle. A node goes to END exactly when it is `generate_rag`, `direct` or `web_search` |
| `Graph.PathFrom` | src/graph/graph.py:40-72 | a run from any node starts there, follows the graph's edges from each node to the next, is finite and ends at a node whose edge is END |
| `Graph.Visits` | src/graph/graph.py:40-72 | runs start at the router. "rag" visits router, retrieve and generate_rag. "web_search" visits router and web_search. Any other decision visits router and direct. So every run takes 3 node visits on the rag route and 2 otherwise |
| `Graph.TurnOutcome` | src/graph/graph.py:25-75 | a turn sets the decision to the classifier's datasource, then does what that route's nodes say. Question, iterations and session id never change |
| `RelevanceGrader.KeptIndices` | src/graph/nodes/graders/relevance_grader.py:123-130 | the kept positions are strictly increasing and in range, and a position is kept exactly when its document's `binary_score` is true |
| `RelevanceGrader.FilteredIsKeptSubsequence` | src/graph/nodes/graders/relevance_grader.py:123-130 | the filtered list is the documents at the kept positions, an order-preserving subsequence |
| `RelevanceGrader.FilteredNoLonger` | src/graph/nodes/graders/relevance_grader.py:123-130 | the filtered list is never longer than the input, and an empty input gives an empty output |
| `RelevanceGrader.FilterDocuments` | src/graph/nodes/graders/relevance_grader.py:108-130 | the loop returns the filtered list. Every kept document is an input document graded relevant |
| `RelevanceGrader.GradeAll` | src/graph/nodes/graders/relevance_grader.py:132-150 | one `(document, binary_score, reasoning)` triple per input document, in input order |
| `RelevanceGrader.FilterAgreesWithGradeAll` | src/graph/nodes/graders/relevance_grader.py:125-148 | with a deterministic grader, the filtered list is the documents that `grade_all` flags true, in order |
| `Reflection.Reflect` | src/graph/nodes/reflection.py:52-111 | iterations becomes the old count plus one, a missing key counting as 0. A true grade keeps the generation. A false grade with count >= 2 appends the disclaimer. A false grade with count < 2 gives the regeneration on the documents' context. Only generation and iterations change |
| `Reflection.Run` | src/graph/nodes/reflection.py:55-111 | driving the step takes one more grading pass than regenerations, and at most 3 passes from count 0. The count rises by exactly the number of passes. The last graded answer is the original generation or the regeneration. An approved answer is returned as graded; an exhausted one is a rejected answer plus the disclaimer |
| `Reflection.FreshTurnBound` | src/graph/nodes/reflection.py:55-56 | from count 0, at most 3 grading passes and 2 regenerations |
| `Reflection.ApprovedAtOnce` | src/graph/nodes/reflection.py:70-75 | an answer approved on the first pass is returned unchanged after 1 pass, with the count raised by one |
| `Reflection.RegenerationApproved` | src/graph/nodes/reflection.py:70-111 | from count 0, if the first answer is rejected and its regeneration approved, the loop stops after 2 passes and 1 regeneration. It returns the regenerated answer unchanged with a count of 2 |
| `Reflection.NeverGrounded` | src/graph/nodes/reflection.py:81-111 | if every answer is rejected, a run from count 0 takes exactly 3 passes and 2 regenerations. It ends with the regenerated answer plus the disclaimer, and a count of 3 |

## Left out

- The chat UI (`app.py`), the admin dashboard (`admin.py`) and the feedback
  database (`src/database/feedback_db.py`) are presentation and SQLite I/O.
  They are not part of this model.
- Ingestion and maintenance scripts and the scripts that call live services
  are external I/O with nothing to state. These are `setup_pinecone.py`,
  `upload_pdfs.py`, `clear_pinecone.py`, `tests/upload_events.py` and the
  `test_*.py` files.
- The wrappers over the language model, the vector store and configuration
  are oracles here. They are `src/services/llm_services.py`,
  `src/services/vectorstore_service.py` and `src/core/config.py`.
  `src/graph/nodes/graders/answer_grader.py` is unused and is not part of
  this model.
- The hallucination grader and the relevance grader's `grade` are oracles
  returning a `Grade`. The prompts they build are not modelled, nor is the
  hallucination grader's own document formatting.
- Oracles are deterministic functions: the same call gives the same answer.
  A language model's varying answers to repeated calls are not captured.
- Prompt wording and the quality of routing, grading and generation are
  language-model behaviour, not code.
- Console output (`print`) in the reflection step has no effect on state
  and is left out.
- Timestamps from `datetime.now()` are opaque strings passed in by the caller.
- The `MemoryService` singleton (`__new__` sharing one instance per process)
  is replaced by one explicitly constructed `Service` object.
- `MemoryService.get_context`, `get_last_topic` and `clear` only delegate to
  the `ConversationMemory` methods. They are not repeated.
- `get_history` returns the stored list object itself, and Python callers
  could mutate it through that alias. The model returns a value.
- `str.lower` is modelled for ASCII, Latin-1, Latin Extended-A and the
  Kelvin, Angstrom and Ohm signs. Latin Extended-B (U+0180 to U+024F), Greek,
  Cyrillic and the other scripts keep their characters unchanged in the model,
  so a message using their capitals may find a topic in Python but not in
  `GetLastTopic`.
- The model's turn state always carries all seven fields. In Python the
  state is a dictionary whose keys may be absent. A step fails with a
  KeyError only on a key it reads with `state[...]`:
  - the router, retrieve and direct nodes read `question`;
  - generate_rag reads `question` and `documents`, and on the rag route
    retrieve has already set `documents`;
  - web_search reads nothing;
  - the reflection step reads `question`, `generation` and `documents`, and
    reads `iterations` with a default of 0.
- State keys that no step reads, `session_id` for example, may be absent in
  Python without effect. The model does not represent an absent key, except
  `iterations` as `None`.
- Document metadata other than `source`, and state keys other than the seven
  turn-state fields, are not modelled.
- A classifier reply that fails `RouteDecision` validation raises in Python.
  The model's classifier returns only well-formed decisions.
- Behaviour the code does not contain is not modelled. That covers
  memory-aware routing, follow-up query expansion, reflection inside the
  graph and per-session locking.
