/**
 * The reflection step: the hallucination grader (an oracle) checks the
 * current generation against the documents; a grounded answer is approved
 * as is, an ungrounded one is regenerated by the language model (an
 * oracle) with a stricter prompt, or, once two regenerations have been
 * spent, returned with a fixed disclaimer. Every step counts one iteration.
 *
 * The graph built in the graph module does not call this step; `Run`
 * drives it to completion on its own to state the loop's bound.
 */
module Reflection {
  import opened Builtins
  import opened State
  import Rag

  /** The number of regenerations allowed before the disclaimer. */
  const MaxIterations := 2

  const Disclaimer :=
    "\n\n(Not: Bu bilgi dökümanlarımızda tam olarak bulunamadı. "
    + "Lütfen kulüple direkt iletişime geçin.)"

  /** The iteration count of a state, a missing key counting as 0. */
  function IterationsOf(s: GraphState): int
  {
    s.iterations.GetOr(0)
  }

  /** `ReflectionNode.__call__`, with the hallucination grader and the
      regeneration model as oracles. */
  function Reflect(s: GraphState, grader: (string, seq<Document>) -> Grade,
                   regenerate: (string, string) -> string): (r: GraphState)
    ensures r.iterations == Some(IterationsOf(s) + 1)
    ensures OnlyChanged(s, r, {Generation, Iterations})
    ensures grader(s.generation, s.documents).binaryScore ==> r.generation == s.generation
    ensures !grader(s.generation, s.documents).binaryScore && IterationsOf(s) >= MaxIterations ==>
      r.generation == s.generation + Disclaimer
    ensures !grader(s.generation, s.documents).binaryScore && IterationsOf(s) < MaxIterations ==>
      r.generation == regenerate(Rag.Context(s.documents), s.question)
  {
    var iterations := IterationsOf(s);
    if grader(s.generation, s.documents).binaryScore then
      s.(iterations := Some(iterations + 1))
    else if iterations >= MaxIterations then
      s.(generation := s.generation + Disclaimer, iterations := Some(iterations + 1))
    else
      s.(generation := regenerate(Rag.Context(s.documents), s.question), iterations := Some(iterations + 1))
  }

  /** How a driven reflection ends: approved by the hallucination grader, or exhausted
      with the disclaimer appended. */
  datatype Outcome = Approved | Exhausted

  /** The end of a driven reflection: the final state, the last answer the
      grader saw, how many grading passes and regenerations it took, and
      how it ended. */
  datatype Trace = Trace(final: GraphState, lastGraded: string, passes: nat, regenerations: nat, outcome: Outcome)

  /** The most grading passes a reflection starting at `iterations` can take. */
  function PassBound(iterations: int): int
  {
    if iterations >= MaxIterations then 1 else MaxIterations + 1 - iterations
  }

  /** Applies `Reflect` until the answer is approved or the disclaimer is
      appended. Each pass but the last regenerates; the iteration count
      rises by one per pass; at most `PassBound` passes happen, which is
      3 passes and 2 regenerations from a fresh turn. An approved answer is
      returned exactly as graded; an exhausted one is the last graded answer
      with the disclaimer appended. */
  function Run(s: GraphState, grader: (string, seq<Document>) -> Grade,
               regenerate: (string, string) -> string): (t: Trace)
    ensures t.passes == t.regenerations + 1
    ensures IterationsOf(t.final) == IterationsOf(s) + t.passes
    ensures 1 <= t.passes <= PassBound(IterationsOf(s))
    ensures OnlyChanged(s, t.final, {Generation, Iterations})
    ensures t.lastGraded == s.generation || t.lastGraded == regenerate(Rag.Context(s.documents), s.question)
    ensures t.outcome == Approved ==>
      t.final.generation == t.lastGraded && grader(t.lastGraded, s.documents).binaryScore
    ensures t.outcome == Exhausted ==>
      t.final.generation == t.lastGraded + Disclaimer && !grader(t.lastGraded, s.documents).binaryScore
      && IterationsOf(t.final) - 1 >= MaxIterations
    decreases if IterationsOf(s) < MaxIterations then MaxIterations - IterationsOf(s) else 0
  {
    var next := Reflect(s, grader, regenerate);
    if grader(s.generation, s.documents).binaryScore then
      Trace(next, s.generation, 1, 0, Approved)
    else if IterationsOf(s) >= MaxIterations then
      Trace(next, s.generation, 1, 0, Exhausted)
    else
      var t := Run(next, grader, regenerate);
      Trace(t.final, t.lastGraded, t.passes + 1, t.regenerations + 1, t.outcome)
  }

  /** From a fresh turn (no iterations yet) the loop grades at most three
      times and regenerates at most twice. */
  lemma FreshTurnBound(s: GraphState, grader: (string, seq<Document>) -> Grade,
                       regenerate: (string, string) -> string)
    requires IterationsOf(s) == 0
    ensures Run(s, grader, regenerate).passes <= 3
    ensures Run(s, grader, regenerate).regenerations <= 2
  {
  }

  /** An answer the hallucination grader approves at once is returned unchanged after one
      pass, with the iteration count raised by one. */
  lemma ApprovedAtOnce(s: GraphState, grader: (string, seq<Document>) -> Grade,
                       regenerate: (string, string) -> string)
    requires grader(s.generation, s.documents).binaryScore
    ensures Run(s, grader, regenerate).passes == 1
    ensures Run(s, grader, regenerate).outcome == Approved
    ensures Run(s, grader, regenerate).final == s.(iterations := Some(IterationsOf(s) + 1))
  {
    assert Run(s, grader, regenerate) == Trace(Reflect(s, grader, regenerate), s.generation, 1, 0, Approved);
  }

  /** A rejected first answer whose regeneration is approved ends the loop
      at once: two passes, one regeneration, and the regenerated answer is
      returned as it is, with an iteration count of two. */
  lemma RegenerationApproved(s: GraphState, grader: (string, seq<Document>) -> Grade,
                             regenerate: (string, string) -> string)
    requires IterationsOf(s) == 0
    requires !grader(s.generation, s.documents).binaryScore
    requires grader(regenerate(Rag.Context(s.documents), s.question), s.documents).binaryScore
    ensures Run(s, grader, regenerate).passes == 2
    ensures Run(s, grader, regenerate).regenerations == 1
    ensures Run(s, grader, regenerate).outcome == Approved
    ensures Run(s, grader, regenerate).final.generation == regenerate(Rag.Context(s.documents), s.question)
    ensures Run(s, grader, regenerate).final.iterations == Some(2)
  {
    var s1 := Reflect(s, grader, regenerate);
    assert Run(s1, grader, regenerate) == Trace(Reflect(s1, grader, regenerate), s1.generation, 1, 0, Approved);
  }

  /** When the hallucination grader rejects every answer, a fresh turn takes exactly three
      passes and two regenerations, and ends with the regenerated answer
      plus the disclaimer and an iteration count of three. */
  lemma {:induction false} NeverGrounded(s: GraphState, grader: (string, seq<Document>) -> Grade,
                                         regenerate: (string, string) -> string)
    requires IterationsOf(s) == 0
    requires forall g :: !grader(g, s.documents).binaryScore
    ensures Run(s, grader, regenerate).passes == 3
    ensures Run(s, grader, regenerate).regenerations == 2
    ensures Run(s, grader, regenerate).outcome == Exhausted
    ensures Run(s, grader, regenerate).final.generation
            == regenerate(Rag.Context(s.documents), s.question) + Disclaimer
    ensures Run(s, grader, regenerate).final.iterations == Some(3)
  {
    var s1 := Reflect(s, grader, regenerate);
    var s2 := Reflect(s1, grader, regenerate);
    assert !grader(s.generation, s.documents).binaryScore;
    assert !grader(s1.generation, s1.documents).binaryScore;
    assert !grader(s2.generation, s2.documents).binaryScore;
    assert Run(s2, grader, regenerate) == Trace(Reflect(s2, grader, regenerate), s2.generation, 1, 0, Exhausted);
    assert Run(s1, grader, regenerate).passes == 2;
  }
}
