/**
 * The scoring state machine shared by the "identify" and "locate" exercise
 * screens: a word index, a score, an attempt counter, the feedback shown and
 * a completion flag. Each answer is one atomic step: the 1.5 s pause before
 * the next word is folded into the step.
 */
module Scoring {
  import opened Types

  datatype Feedback = Correct | Incorrect

  /** The screen's counters. */
  datatype Run = Run(index: nat, score: nat, attempts: nat, feedback: Option<Feedback>, isComplete: bool)

  /** The state on entry and after a restart. */
  const Fresh := Run(0, 0, 0, None, false)

  /** What one answer produces: the new counters and, on the last word, the reported score. */
  datatype Step = Step(run: Run, report: Option<real>)

  /** The score reported on completion: the share of right answers, in percent. */
  function Percent(score: nat, n: nat): (p: real)
    requires n > 0
    ensures 0.0 <= p
    ensures score <= n ==> p <= 100.0
    ensures p == 100.0 <==> score == n
    ensures p == 0.0 <==> score == 0
  {
    score as real / n as real * 100.0
  }

  /**
   * `handleAnswer`/`handlePositionClick` on a list of `n` words, the answer
   * being right when `correct` holds.
   */
  function Answer(r: Run, n: nat, correct: bool): (s: Step)
    ensures r.index >= n || r.isComplete ==> s == Step(r, None)
    ensures r.index < n && !r.isComplete ==>
      && s.run.attempts == r.attempts + 1
      && s.run.score == r.score + (if correct then 1 else 0)
      && (r.index < n - 1 ==> s == Step(Run(r.index + 1, s.run.score, s.run.attempts, None, false), None))
      && (r.index == n - 1 ==>
            && s.run == Run(r.index, s.run.score, s.run.attempts, Some(if correct then Correct else Incorrect), true)
            && s.report == Some(Percent(s.run.score, n)))
  {
    if r.index >= n || r.isComplete then Step(r, None)
    else
      var score := r.score + (if correct then 1 else 0);
      var fb := if correct then Correct else Incorrect;
      if r.index < n - 1 then Step(Run(r.index + 1, score, r.attempts + 1, None, false), None)
      else Step(Run(r.index, score, r.attempts + 1, Some(fb), true), Some(Percent(score, n)))
  }

  /** The counters any run of answers on `n` words can reach. */
  predicate Consistent(r: Run, n: nat) {
    && r.score <= r.attempts
    && r.attempts == r.index + (if r.isComplete then 1 else 0)
    && (n == 0 ==> r == Fresh)
    && (n > 0 ==> r.index < n)
    && (r.isComplete ==> r.index == n - 1)
  }

  /** Each answer keeps the counters consistent: the score never passes the attempts, the index stays on a word. */
  lemma AnswerKeepsConsistent(r: Run, n: nat, correct: bool)
    requires Consistent(r, n)
    ensures Consistent(Answer(r, n, correct).run, n)
  {
  }

  /** A reported score is a percentage. */
  lemma ReportIsPercentage(r: Run, n: nat, correct: bool)
    requires Consistent(r, n)
    ensures Answer(r, n, correct).report.Some? ==> 0.0 <= Answer(r, n, correct).report.value <= 100.0
  {
    var s := Answer(r, n, correct);
    if s.report.Some? {
      assert s.run.score <= n;
      assert s.run.score as real <= n as real;
    }
  }

  /** The answers given in order, each one right or wrong. */
  function AnswerAll(r: Run, n: nat, corrects: seq<bool>): Step
    decreases |corrects|
  {
    if corrects == [] then Step(r, None)
    else
      var s := Answer(r, n, corrects[0]);
      if |corrects| == 1 then s else AnswerAll(s.run, n, corrects[1..])
  }

  function CountTrue(bs: seq<bool>): (c: nat)
    ensures c <= |bs|
  {
    if bs == [] then 0 else (if bs[0] then 1 else 0) + CountTrue(bs[1..])
  }

  /**
   * Answering every remaining word from word `r.index` completes the
   * activity with a score of the earlier right answers plus the new ones.
   */
  lemma {:induction false} AnswerAllCompletes(r: Run, n: nat, corrects: seq<bool>)
    requires !r.isComplete && r.index < n && |corrects| == n - r.index
    ensures var s := AnswerAll(r, n, corrects);
      && s.run.isComplete && s.run.index == n - 1
      && s.run.score == r.score + CountTrue(corrects)
      && s.run.attempts == r.attempts + |corrects|
      && s.report == Some(Percent(s.run.score, n))
    decreases |corrects|
  {
    var s := Answer(r, n, corrects[0]);
    if |corrects| > 1 {
      AnswerAllCompletes(s.run, n, corrects[1..]);
      assert CountTrue(corrects) == (if corrects[0] then 1 else 0) + CountTrue(corrects[1..]);
    } else {
      assert CountTrue(corrects) == (if corrects[0] then 1 else 0);
    }
  }

  /** A whole activity from the start: the report is the share of right answers. */
  lemma FullRunReport(n: nat, corrects: seq<bool>)
    requires n > 0 && |corrects| == n
    ensures AnswerAll(Fresh, n, corrects).report == Some(Percent(CountTrue(corrects), n))
    ensures AnswerAll(Fresh, n, corrects).run.isComplete
  {
    AnswerAllCompletes(Fresh, n, corrects);
  }

  /** Once complete, further answers change nothing and report nothing. */
  lemma CompleteIsFinal(r: Run, n: nat, correct: bool)
    requires r.isComplete
    ensures Answer(r, n, correct) == Step(r, None)
  {
  }
}
