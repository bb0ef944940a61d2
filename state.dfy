/**
 * The record threaded through one turn of the assistant's graph, the
 * retrieved documents it carries, and the structured grade both graders
 * return.
 */
module State {
  import opened Builtins

  /** A retrieved chunk: its text and the `source` entry of its metadata,
      which may be missing. */
  datatype Document = Document(pageContent: string, source: Option<string>)

  /** The structured output of a grader: a boolean verdict and its rationale. */
  datatype Grade = Grade(binaryScore: bool, reasoning: string)

  /** The turn state. `decision` is the router's datasource as an open
      string; `iterations` is a key that callers may leave out. */
  datatype GraphState = GraphState(
    question: string,
    generation: string,
    documents: seq<Document>,
    decision: string,
    webResults: seq<string>,
    iterations: Option<int>,
    sessionId: string)

  datatype Field = Question | Generation | Documents | Decision | WebResults | Iterations | SessionId

  predicate Unchanged(s: GraphState, r: GraphState, f: Field)
  {
    match f
    case Question => r.question == s.question
    case Generation => r.generation == s.generation
    case Documents => r.documents == s.documents
    case Decision => r.decision == s.decision
    case WebResults => r.webResults == s.webResults
    case Iterations => r.iterations == s.iterations
    case SessionId => r.sessionId == s.sessionId
  }

  /** `r` is `s` with at most the fields in `changed` replaced: what
      Python's `{**state, ...}` copy with those keys gives. */
  predicate OnlyChanged(s: GraphState, r: GraphState, changed: set<Field>)
  {
    forall f: Field :: f !in changed ==> Unchanged(s, r, f)
  }
}
