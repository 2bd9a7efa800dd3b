/**
 * The children's progress bar: its fill value and the row of stars, each
 * completed, current or still to come.
 */
module KidsProgress {
  import opened Types
  import opened Text

  /**
   * The fill, `currentStep / totalSteps * 100`; None when there are no steps
   * (JavaScript's division by zero gives no finite percentage).
   */
  function ProgressValue(currentStep: int, totalSteps: int): (p: Option<real>)
    ensures p.None? <==> totalSteps == 0
    ensures totalSteps > 0 && 0 <= currentStep <= totalSteps ==> p.Some? && 0.0 <= p.value <= 100.0
    ensures totalSteps > 0 ==> (p == Some(100.0) <==> currentStep == totalSteps)
    ensures totalSteps > 0 ==> (p == Some(0.0) <==> currentStep == 0)
  {
    if totalSteps == 0 then None else Some(currentStep as real / totalSteps as real * 100.0)
  }

  /** One star of the row: its number and its two flags. */
  datatype Star = Star(number: int, completed: bool, current: bool)

  /** `Array.from({ length: totalSteps }, ...)`: star i is numbered i + 1, completed before the current step, current at it. */
  function Stars(currentStep: int, totalSteps: nat): (stars: seq<Star>)
    ensures |stars| == totalSteps
    ensures forall i :: 0 <= i < totalSteps ==> stars[i].number == i + 1
    ensures forall i :: 0 <= i < totalSteps ==> (stars[i].completed <==> i < currentStep)
    ensures forall i :: 0 <= i < totalSteps ==> (stars[i].current <==> i == currentStep)
  {
    seq(totalSteps, i => Star(i + 1, i < currentStep, i == currentStep))
  }

  /** A star is never completed and current at once; at most one is current, and none once every step is done. */
  lemma CurrentStarUnique(currentStep: int, totalSteps: nat)
    ensures forall i :: 0 <= i < totalSteps ==> !(Stars(currentStep, totalSteps)[i].completed && Stars(currentStep, totalSteps)[i].current)
    ensures forall i, j :: 0 <= i < totalSteps && 0 <= j < totalSteps && Stars(currentStep, totalSteps)[i].current && Stars(currentStep, totalSteps)[j].current ==> i == j
    ensures currentStep >= totalSteps ==> forall i :: 0 <= i < totalSteps ==> !Stars(currentStep, totalSteps)[i].current
    ensures 0 <= currentStep < totalSteps ==> Stars(currentStep, totalSteps)[currentStep].current
  {
  }

  function CountCompleted(stars: seq<Star>): nat {
    if stars == [] then 0 else CountCompleted(stars[..|stars| - 1]) + (if stars[|stars| - 1].completed then 1 else 0)
  }

  lemma {:induction false} CountCompletedPrefix(currentStep: int, n: nat)
    ensures CountCompleted(Stars(currentStep, n)) == if currentStep <= 0 then 0 else if currentStep >= n then n else currentStep
  {
    if n > 0 {
      CountCompletedPrefix(currentStep, n - 1);
      assert Stars(currentStep, n)[..n - 1] == Stars(currentStep, n - 1);
    }
  }

  /** As many stars are completed as steps are done, clamped to the row. */
  lemma CompletedStarsCount(currentStep: int, totalSteps: nat)
    requires 0 <= currentStep <= totalSteps
    ensures CountCompleted(Stars(currentStep, totalSteps)) == currentStep
  {
    CountCompletedPrefix(currentStep, totalSteps);
  }

  /** The caption under a star. */
  function Label(s: Star): (l: string)
    ensures s.completed ==> l == "Réussi !"
    ensures !s.completed && s.current ==> l == "En cours"
    ensures !s.completed && !s.current ==> l == "À venir"
  {
    if s.completed then "Réussi !" else if s.current then "En cours" else "À venir"
  }

  /** What a star shows: the star emoji once completed, its number otherwise. */
  function Face(s: Star): (f: string)
    requires s.number >= 0
    ensures s.completed ==> f == "⭐"
    ensures !s.completed ==> f == NatToString(s.number)
  {
    if s.completed then "⭐" else NatToString(s.number)
  }
}
