/**
 * The router node: a structured classifier picks one of three closed
 * datasources for the question, and the node records it as the state's
 * decision.
 */
module Router {
  import opened State

  /** The closed set of datasources a route decision may name. */
  datatype Datasource = Rag | WebSearch | Direct

  /** The classifier's structured output; the reasoning is never used. */
  datatype RouteDecision = RouteDecision(datasource: Datasource, reasoning: string)

  /** The string each datasource is written as in the turn state. */
  function DatasourceName(d: Datasource): (r: string)
    ensures r in {"rag", "web_search", "direct"}
  {
    match d
    case Rag => "rag"
    case WebSearch => "web_search"
    case Direct => "direct"
  }

  /** Distinct datasources are written as distinct strings, so the decision
      string determines the datasource. */
  lemma DatasourceNameInjective(a: Datasource, b: Datasource)
    requires DatasourceName(a) == DatasourceName(b)
    ensures a == b
  {
  }

  /** `RouterNode.__call__`: the classifier sees the question alone; its
      datasource becomes the decision and no other field changes. */
  function RouterNode(s: GraphState, classify: string -> RouteDecision): (r: GraphState)
    ensures r.decision == DatasourceName(classify(s.question).datasource)
    ensures r.decision in {"rag", "web_search", "direct"}
    ensures OnlyChanged(s, r, {Decision})
  {
    s.(decision := DatasourceName(classify(s.question).datasource))
  }

  /** Routing consults neither the session nor anything but the question:
      two states with the same question are routed alike. */
  lemma RoutingReadsOnlyQuestion(s: GraphState, t: GraphState, classify: string -> RouteDecision)
    requires s.question == t.question
    ensures RouterNode(s, classify).decision == RouterNode(t, classify).decision
  {
  }
}
