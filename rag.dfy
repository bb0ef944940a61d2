/**
 * The retrieval-augmented path: the node that fetches documents for the
 * question and the node that answers from them. The vector index and the
 * language model are oracles passed in as functions.
 */
module Rag {
  import opened Builtins
  import opened State

  const ContextSeparator := "\n\n---\n\n"

  /** The source a document is cited under: its metadata's `source`, or
      "Unknown" when the key is missing. */
  function SourceName(d: Document): string
  {
    d.source.GetOr("Unknown")
  }

  /** One document as the prompt shows it: a source header line, then the text. */
  function RenderDocument(d: Document): string
  {
    "[Kaynak: " + SourceName(d) + "]\n" + d.pageContent
  }

  function RenderAll(docs: seq<Document>): (r: seq<string>)
    ensures |r| == |docs| && forall k :: 0 <= k < |docs| ==> r[k] == RenderDocument(docs[k])
  {
    seq(|docs|, k requires 0 <= k < |docs| => RenderDocument(docs[k]))
  }

  /** The context handed to the generator: the rendered documents in
      document order, separated by a horizontal rule. */
  function Context(docs: seq<Document>): string
  {
    Join(RenderAll(docs), ContextSeparator)
  }

  /** The context is empty exactly when there are no documents. */
  lemma ContextEmptyIff(docs: seq<Document>)
    ensures Context(docs) == "" <==> docs == []
  {
    var parts := RenderAll(docs);
    forall k | 0 <= k < |parts| ensures parts[k] != "" {
      assert parts[k][0] == '[';
    }
    JoinEmptyIff(parts, ContextSeparator);
  }

  /** A single document's context is its rendering alone. */
  lemma ContextSingle(d: Document)
    ensures Context([d]) == "[Kaynak: " + SourceName(d) + "]\n" + d.pageContent
  {
  }

  /** The context of two document lists is their contexts joined by one
      separator: documents are rendered in order, none dropped or reordered. */
  lemma ContextAppend(xs: seq<Document>, ys: seq<Document>)
    requires xs != [] && ys != []
    ensures Context(xs + ys) == Context(xs) + ContextSeparator + Context(ys)
  {
    assert RenderAll(xs + ys) == RenderAll(xs) + RenderAll(ys);
    JoinAppend(RenderAll(xs), RenderAll(ys), ContextSeparator);
  }

  /** `RetrieveNode.__call__`: the documents become what the index returns
      for the question; nothing else changes. */
  function RetrieveNode(s: GraphState, retrieve: string -> seq<Document>): (r: GraphState)
    ensures r.documents == retrieve(s.question)
    ensures OnlyChanged(s, r, {Documents})
  {
    s.(documents := retrieve(s.question))
  }

  /** `GenerateRAGNode.__call__`: the generation becomes the model's answer
      to the question given the documents' context; nothing else changes. */
  function GenerateRagNode(s: GraphState, answer: (string, string) -> string): (r: GraphState)
    ensures r.generation == answer(Context(s.documents), s.question)
    ensures OnlyChanged(s, r, {Generation})
  {
    s.(generation := answer(Context(s.documents), s.question))
  }

  /** Retrieval depends on the question alone, so running the node again
      on its own output changes nothing. */
  lemma RetrieveIdempotent(s: GraphState, retrieve: string -> seq<Document>)
    ensures RetrieveNode(RetrieveNode(s, retrieve), retrieve) == RetrieveNode(s, retrieve)
  {
  }

  /** Generation reads only the question and the documents: two states that
      agree on those get the same answer, whatever else they hold. */
  lemma GenerateRagReadsQuestionAndDocuments(s: GraphState, t: GraphState, answer: (string, string) -> string)
    requires s.question == t.question && s.documents == t.documents
    ensures GenerateRagNode(s, answer).generation == GenerateRagNode(t, answer).generation
  {
  }
}
