/**
 * The two non-retrieval answer nodes: the direct node asks the language
 * model (an oracle) about the question alone, and the web-search node,
 * which has no search backend, answers with a fixed notice.
 */
module Generation {
  import opened State

  const WebSearchNotice :=
    "Web araması henüz aktif değil. Bu özellik için Tavily API key "
    + "eklemeniz gerekiyor. Kulüp hakkında sorularınız için dökümanlarımızı "
    + "kullanabilirsiniz."

  const WebSearchResults: seq<string> := ["Web search not configured"]

  /** `DirectNode.__call__`: the generation becomes the model's answer to
      the question alone; nothing else changes. */
  function DirectNode(s: GraphState, answer: string -> string): (r: GraphState)
    ensures r.generation == answer(s.question)
    ensures OnlyChanged(s, r, {Generation})
  {
    s.(generation := answer(s.question))
  }

  /** `WebSearchNode.__call__`: the generation becomes the fixed notice and
      the web results the one-element placeholder list; nothing else changes. */
  function WebSearchNode(s: GraphState): (r: GraphState)
    ensures r.generation == WebSearchNotice
    ensures r.webResults == ["Web search not configured"]
    ensures OnlyChanged(s, r, {Generation, WebResults})
  {
    s.(generation := WebSearchNotice, webResults := WebSearchResults)
  }

  /** The web-search answer does not depend on the question, or on any
      other field of the state. */
  lemma WebSearchIgnoresState(s: GraphState, t: GraphState)
    ensures WebSearchNode(s).generation == WebSearchNode(t).generation
    ensures WebSearchNode(s).webResults == WebSearchNode(t).webResults
  {
  }

  /** The direct answer reads the question and nothing else: documents,
      decision and session do not affect it. */
  lemma DirectReadsOnlyQuestion(s: GraphState, t: GraphState, answer: string -> string)
    requires s.question == t.question
    ensures DirectNode(s, answer).generation == DirectNode(t, answer).generation
  {
  }
}
