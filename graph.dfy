/**
 * The turn graph: a run starts at the router; `RouteQuestion` turns the
 * router's decision into the name of the next node; the retrieval path
 * goes on to generation; every answer node ends the run. There is no
 * reflection node and no cycle.
 */
module Graph {
  import opened Builtins
  import opened State
  import Router
  import Rag
  import Generation

  /** The nodes the graph is built with. */
  datatype Node = RouterStep | Retrieve | GenerateRag | Direct | WebSearch

  function NodeName(n: Node): string
  {
    match n
    case RouterStep => "router"
    case Retrieve => "retrieve"
    case GenerateRag => "generate_rag"
    case Direct => "direct"
    case WebSearch => "web_search"
  }

  /** The branch table of the router's conditional edges: branch name to node. */
  const RouterBranches: map<string, Node> :=
    map["retrieve" := Retrieve, "web_search" := WebSearch, "direct" := Direct]

  /** `route_question`: "rag" goes to retrieval, "web_search" to the web
      search node, and every other decision, the empty one included, to the
      direct node; the branch table covers every answer, so dispatch is total. */
  function RouteQuestion(decision: string): (r: string)
    ensures r in RouterBranches
    ensures r == "retrieve" <==> decision == "rag"
    ensures r == "web_search" <==> decision == "web_search"
    ensures r == "direct" <==> decision != "rag" && decision != "web_search"
  {
    if decision == "rag" then "retrieve"
    else if decision == "web_search" then "web_search"
    else "direct"
  }

  /** The node every run starts at (the edge from START). */
  const Entry: Node := RouterStep

  /** A node's distance from END, the graph's acyclicity witness. */
  function Rank(n: Node): nat
  {
    match n
    case RouterStep => 3
    case Retrieve => 2
    case _ => 1
  }

  /** The edges of the graph: the successor of `n` when the state's
      decision is `decision`, or `None` for the edge to END. Every edge
      lowers the rank, so the graph has no cycle. */
  function Next(n: Node, decision: string): (r: Option<Node>)
    ensures r.Some? ==> Rank(r.value) < Rank(n)
    ensures r.None? <==> n in {GenerateRag, Direct, WebSearch}
  {
    match n
    case RouterStep => Some(RouterBranches[RouteQuestion(decision)])
    case Retrieve => Some(GenerateRag)
    case GenerateRag => None
    case Direct => None
    case WebSearch => None
  }

  /** The nodes a run visits from `n` on, when the decision is `decision`. */
  function PathFrom(n: Node, decision: string): (p: seq<Node>)
    ensures 1 <= |p| <= Rank(n)
    ensures p[0] == n && Next(p[|p| - 1], decision).None?
    ensures forall k :: 0 <= k < |p| - 1 ==> Next(p[k], decision) == Some(p[k + 1])
    decreases Rank(n)
  {
    match Next(n, decision)
    case None => [n]
    case Some(m) => [n] + PathFrom(m, decision)
  }

  /** The whole run for a decision: the retrieval path visits three nodes,
      every other decision two, and the run always ends. */
  lemma Visits(decision: string)
    ensures decision == "rag" ==> PathFrom(Entry, decision) == [RouterStep, Retrieve, GenerateRag]
    ensures decision == "web_search" ==> PathFrom(Entry, decision) == [RouterStep, WebSearch]
    ensures decision != "rag" && decision != "web_search" ==> PathFrom(Entry, decision) == [RouterStep, Direct]
    ensures |PathFrom(Entry, decision)| == (if decision == "rag" then 3 else 2)
  {
  }

  /** The external services of one turn, all oracles. */
  datatype Oracles = Oracles(
    classify: string -> Router.RouteDecision,
    retrieve: string -> seq<Document>,
    answerWithContext: (string, string) -> string,
    answerDirect: string -> string)

  /** What running one node does to the state. */
  function Execute(n: Node, s: GraphState, o: Oracles): GraphState
  {
    match n
    case RouterStep => Router.RouterNode(s, o.classify)
    case Retrieve => Rag.RetrieveNode(s, o.retrieve)
    case GenerateRag => Rag.GenerateRagNode(s, o.answerWithContext)
    case Direct => Generation.DirectNode(s, o.answerDirect)
    case WebSearch => Generation.WebSearchNode(s)
  }

  /** Runs the graph from `n`: execute the node, then follow the edge chosen
      by the decision in the updated state, until END. */
  function RunFrom(n: Node, s: GraphState, o: Oracles): GraphState
    decreases Rank(n)
  {
    var s' := Execute(n, s, o);
    match Next(n, s'.decision)
    case None => s'
    case Some(m) => RunFrom(m, s', o)
  }

  /** One turn through the compiled graph. */
  function RunTurn(s: GraphState, o: Oracles): GraphState
  {
    RunFrom(Entry, s, o)
  }

  /** What a turn produces, route by route. The decision is the classifier's
      datasource for the question. On the retrieval route the documents are
      the index's results for the question and the answer is generated from
      their context; on the direct route the answer is the model's answer to
      the question alone; on the web-search route it is the fixed notice. No
      route touches the iteration count or the session id. */
  lemma TurnOutcome(s: GraphState, o: Oracles)
    ensures var r := RunTurn(s, o);
      && r.question == s.question && r.iterations == s.iterations && r.sessionId == s.sessionId
      && r.decision == Router.DatasourceName(o.classify(s.question).datasource)
      && (r.decision == "rag" ==>
            r.documents == o.retrieve(s.question)
            && r.generation == o.answerWithContext(Rag.Context(o.retrieve(s.question)), s.question)
            && r.webResults == s.webResults)
      && (r.decision == "direct" ==>
            r.documents == s.documents && r.webResults == s.webResults
            && r.generation == o.answerDirect(s.question))
      && (r.decision == "web_search" ==>
            r.documents == s.documents
            && r.generation == Generation.WebSearchNotice
            && r.webResults == Generation.WebSearchResults)
  {
    var s1 := Router.RouterNode(s, o.classify);
    assert Unchanged(s, s1, Question) && Unchanged(s, s1, Iterations) && Unchanged(s, s1, SessionId);
    assert Unchanged(s, s1, Documents) && Unchanged(s, s1, WebResults);
    match o.classify(s.question).datasource
    case Rag =>
      var s2 := Rag.RetrieveNode(s1, o.retrieve);
      assert Unchanged(s1, s2, Question) && Unchanged(s1, s2, Decision) && Unchanged(s1, s2, WebResults);
      assert Unchanged(s1, s2, Iterations) && Unchanged(s1, s2, SessionId);
      var s3 := Rag.GenerateRagNode(s2, o.answerWithContext);
      assert Unchanged(s2, s3, Question) && Unchanged(s2, s3, Decision) && Unchanged(s2, s3, Documents);
      assert Unchanged(s2, s3, WebResults) && Unchanged(s2, s3, Iterations) && Unchanged(s2, s3, SessionId);
      assert RunTurn(s, o) == s3;
    case Direct =>
      var s2 := Generation.DirectNode(s1, o.answerDirect);
      assert Unchanged(s1, s2, Question) && Unchanged(s1, s2, Decision) && Unchanged(s1, s2, Documents);
      assert Unchanged(s1, s2, WebResults) && Unchanged(s1, s2, Iterations) && Unchanged(s1, s2, SessionId);
      assert RunTurn(s, o) == s2;
    case WebSearch =>
      var s2 := Generation.WebSearchNode(s1);
      assert Unchanged(s1, s2, Question) && Unchanged(s1, s2, Decision) && Unchanged(s1, s2, Documents);
      assert Unchanged(s1, s2, Iterations) && Unchanged(s1, s2, SessionId);
      assert RunTurn(s, o) == s2;
  }
}
