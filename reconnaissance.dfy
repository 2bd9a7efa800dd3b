/**
 * The "recognise" exercise: four fixed exercises, each a target grapheme
 * among four options. The screen keeps an index, a score and a completion
 * flag; it has no attempt counter and no feedback.
 */
module Reconnaissance {
  import opened Types
  import Scoring

  datatype Exercise = Exercise(targetGrapheme: string, options: seq<string>)

  const Exercises: seq<Exercise> := [
    Exercise("a", ["a", "e", "o", "u"]),
    Exercise("A", ["A", "E", "O", "U"]),
    Exercise("i", ["i", "l", "j", "t"]),
    Exercise("I", ["I", "L", "J", "T"])]

  /** Each exercise's target is among its options, and the options are distinct. */
  lemma TargetsOffered()
    ensures forall k :: 0 <= k < |Exercises| ==> Exercises[k].targetGrapheme in Exercises[k].options
    ensures forall k, i, j :: 0 <= k < |Exercises| && 0 <= i < j < |Exercises[k].options| ==>
      Exercises[k].options[i] != Exercises[k].options[j]
  {
  }

  /** The counters of the screen. */
  datatype Progress = Progress(currentIndex: nat, score: nat, isComplete: bool)

  /** What one answer produces: the new counters and, on the last exercise, the reported score. */
  datatype Outcome = Outcome(progress: Progress, report: Option<real>)

  /**
   * `handleAnswer(selected)`. The handler has no guard of its own: it reads
   * `exercises[currentIndex]`, so it needs an index on an exercise.
   */
  function Answer(p: Progress, selected: string): (o: Outcome)
    requires p.currentIndex < |Exercises|
    ensures var correct := selected == Exercises[p.currentIndex].targetGrapheme;
      && o.progress.score == p.score + (if correct then 1 else 0)
      && (p.currentIndex < |Exercises| - 1 ==>
            o == Outcome(Progress(p.currentIndex + 1, o.progress.score, p.isComplete), None))
      && (p.currentIndex == |Exercises| - 1 ==>
            o == Outcome(Progress(p.currentIndex, o.progress.score, true), Some(Scoring.Percent(o.progress.score, |Exercises|))))
  {
    var correct := selected == Exercises[p.currentIndex].targetGrapheme;
    var score := p.score + (if correct then 1 else 0);
    if p.currentIndex < |Exercises| - 1 then Outcome(Progress(p.currentIndex + 1, score, p.isComplete), None)
    else Outcome(Progress(p.currentIndex, score, true), Some(Scoring.Percent(score, |Exercises|)))
  }

  /** Counters reachable from the start without answering past completion. */
  predicate Consistent(p: Progress) {
    && p.currentIndex < |Exercises|
    && p.score <= p.currentIndex + (if p.isComplete then 1 else 0)
    && (p.isComplete ==> p.currentIndex == |Exercises| - 1)
  }

  /** An answer on a screen that is not yet complete keeps the counters consistent and reports a percentage. */
  lemma AnswerKeepsConsistent(p: Progress, selected: string)
    requires Consistent(p) && !p.isComplete
    ensures Consistent(Answer(p, selected).progress)
    ensures Answer(p, selected).report.Some? ==>
      0.0 <= Answer(p, selected).report.value <= 100.0
  {
    var o := Answer(p, selected);
    assert o.progress.score <= |Exercises|;
    assert o.progress.score as real <= |Exercises| as real;
  }

  /** Choosing every target in turn gives 100. */
  lemma AllTargetsGive100()
    ensures var p1 := Answer(Progress(0, 0, false), "a").progress;
      var p2 := Answer(p1, "A").progress;
      var p3 := Answer(p2, "i").progress;
      Answer(p3, "I") == Outcome(Progress(3, 4, true), Some(100.0))
  {
  }

  class Screen {
    var currentIndex: nat
    var score: nat
    var isComplete: bool

    function State(): Progress
      reads this
    {
      Progress(currentIndex, score, isComplete)
    }

    constructor ()
      ensures State() == Progress(0, 0, false)
    {
      currentIndex, score, isComplete := 0, 0, false;
    }

    method HandleAnswer(selected: string) returns (report: Option<real>)
      requires currentIndex < |Exercises|
      modifies this
      ensures Outcome(State(), report) == Answer(old(State()), selected)
    {
      var o := Answer(State(), selected);
      currentIndex, score, isComplete := o.progress.currentIndex, o.progress.score, o.progress.isComplete;
      report := o.report;
    }
  }
}
