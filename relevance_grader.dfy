/**
 * The relevance grader: an oracle grades one document against the
 * question; `FilterDocuments` keeps the documents graded relevant and
 * `GradeAll` reports every grade. Both loop over the documents in order.
 */
module RelevanceGrader {
  import opened State

  /** Whether the relevance grader calls `d` relevant to `question`. */
  predicate Relevant(question: string, d: Document, grade: (string, Document) -> Grade)
  {
    grade(question, d).binaryScore
  }

  /** The documents graded relevant, in their original order. */
  function Filtered(question: string, docs: seq<Document>, grade: (string, Document) -> Grade): seq<Document>
  {
    if docs == [] then []
    else
      var last := docs[|docs| - 1];
      Filtered(question, docs[..|docs| - 1], grade) + (if Relevant(question, last, grade) then [last] else [])
  }

  /** The positions of the relevant documents. They are strictly increasing,
      and a position is listed exactly when its document is relevant. */
  function KeptIndices(question: string, docs: seq<Document>, grade: (string, Document) -> Grade): (idx: seq<nat>)
    ensures forall k :: 0 <= k < |idx| ==> idx[k] < |docs|
    ensures forall a, b :: 0 <= a < b < |idx| ==> idx[a] < idx[b]
    ensures forall i :: 0 <= i < |docs| ==> (i in idx <==> Relevant(question, docs[i], grade))
  {
    if docs == [] then []
    else
      var n := |docs| - 1;
      var prefix := docs[..n];
      var idx := KeptIndices(question, prefix, grade);
      assert forall i :: 0 <= i < n ==> docs[i] == prefix[i];
      idx + (if Relevant(question, docs[n], grade) then [n] else [])
  }

  /** The filtered list is the documents at the kept positions: an
      order-preserving subsequence holding exactly the relevant documents. */
  lemma {:induction false} FilteredIsKeptSubsequence(question: string, docs: seq<Document>, grade: (string, Document) -> Grade)
    ensures |Filtered(question, docs, grade)| == |KeptIndices(question, docs, grade)|
    ensures forall k :: 0 <= k < |Filtered(question, docs, grade)| ==>
      Filtered(question, docs, grade)[k] == docs[KeptIndices(question, docs, grade)[k]]
  {
    if docs != [] {
      var n := |docs| - 1;
      var prefix := docs[..n];
      FilteredIsKeptSubsequence(question, prefix, grade);
      var f, f' := Filtered(question, docs, grade), Filtered(question, prefix, grade);
      var k, k' := KeptIndices(question, docs, grade), KeptIndices(question, prefix, grade);
      var keep := Relevant(question, docs[n], grade);
      assert f == f' + (if keep then [docs[n]] else []);
      assert k == k' + (if keep then [n] else []);
      forall j | 0 <= j < |f| ensures f[j] == docs[k[j]] {
        if j < |f'| {
          assert f[j] == f'[j] == prefix[k'[j]];
        }
      }
    }
  }

  /** Filtering never lengthens the list, and the empty list stays empty. */
  lemma {:induction false} FilteredNoLonger(question: string, docs: seq<Document>, grade: (string, Document) -> Grade)
    ensures |Filtered(question, docs, grade)| <= |docs|
    ensures docs == [] ==> Filtered(question, docs, grade) == []
  {
    if docs != [] {
      FilteredNoLonger(question, docs[..|docs| - 1], grade);
    }
  }

  /** `RelevanceGrader.filter_documents`. */
  method FilterDocuments(question: string, documents: seq<Document>, grade: (string, Document) -> Grade)
    returns (filtered: seq<Document>)
    ensures filtered == Filtered(question, documents, grade)
    ensures forall d :: d in filtered ==> d in documents && Relevant(question, d, grade)
  {
    filtered := [];
    var i := 0;
    while i < |documents|
      invariant 0 <= i <= |documents|
      invariant filtered == Filtered(question, documents[..i], grade)
      invariant forall d :: d in filtered ==> d in documents[..i] && Relevant(question, d, grade)
    {
      var result := grade(question, documents[i]);
      assert documents[..i + 1][..i] == documents[..i];
      if result.binaryScore {
        filtered := filtered + [documents[i]];
      }
      i := i + 1;
    }
    assert documents[..i] == documents;
  }

  /** One entry of `grade_all`'s report: the document, its verdict and the
      grader's reasoning. */
  type GradedDocument = (Document, bool, string)

  /** `RelevanceGrader.grade_all`: exactly one triple per document, in
      document order, carrying that document's grade. */
  method GradeAll(question: string, documents: seq<Document>, grade: (string, Document) -> Grade)
    returns (results: seq<GradedDocument>)
    ensures |results| == |documents|
    ensures forall i :: 0 <= i < |documents| ==>
      results[i] == (documents[i], grade(question, documents[i]).binaryScore, grade(question, documents[i]).reasoning)
  {
    results := [];
    var i := 0;
    while i < |documents|
      invariant 0 <= i <= |documents|
      invariant |results| == i
      invariant forall j :: 0 <= j < i ==>
        results[j] == (documents[j], grade(question, documents[j]).binaryScore, grade(question, documents[j]).reasoning)
    {
      var g := grade(question, documents[i]);
      results := results + [(documents[i], g.binaryScore, g.reasoning)];
      i := i + 1;
    }
  }

  /** The documents of a report whose verdict is true, in report order. */
  function Flagged(results: seq<GradedDocument>): seq<Document>
  {
    if results == [] then []
    else
      var last := results[|results| - 1];
      Flagged(results[..|results| - 1]) + (if last.1 then [last.0] else [])
  }

  /** With a deterministic grader, filtering agrees with the report: the
      kept documents are those `GradeAll` flags as relevant. */
  lemma {:induction false} FilterAgreesWithGradeAll(question: string, documents: seq<Document>,
                                                    grade: (string, Document) -> Grade, results: seq<GradedDocument>)
    requires |results| == |documents|
    requires forall i :: 0 <= i < |documents| ==>
      results[i] == (documents[i], grade(question, documents[i]).binaryScore, grade(question, documents[i]).reasoning)
    ensures Flagged(results) == Filtered(question, documents, grade)
  {
    if documents != [] {
      var n := |documents| - 1;
      FilterAgreesWithGradeAll(question, documents[..n], grade, results[..n]);
    }
  }
}
