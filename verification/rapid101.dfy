/** The "Rapid 101: Hello World SPA" tutorial page, served twice with the
    same rules (app/rapid-101/page.tsx and
    app/marketplace/learn/rapid-101/page.tsx): one step of an exercise at a
    time, clamped Previous/Next buttons, a rounded progress percentage and
    the deployment simulator on the last step. */
module Rapid101 {
  import opened Common

  const ExerciseId: string := "hello-world-spa"

  datatype ExerciseStep = ExerciseStep(step: int, title: string, description: string, code: string)

  datatype Exercise = Exercise(id: string, title: string, steps: seq<ExerciseStep>)

  /** What the page renders: the not-found notice, a render that fails on
      `steps[currentStep]` being undefined, or the step with its controls. */
  datatype View =
    | NotFound
    | Unrenderable
    | Showing(heading: string, percent: int, step: ExerciseStep,
              previousDisabled: bool, nextDisabled: bool, simulatorShown: bool)

  /** The module-level lookup: the first exercise with the tutorial's id. */
  function FindExercise(exercises: seq<Exercise>): (r: Option<Exercise>)
    ensures r.None? <==> forall e :: e in exercises ==> e.id != ExerciseId
    ensures r.Some? ==> exists k :: 0 <= k < |exercises| && exercises[k] == r.value && exercises[k].id == ExerciseId
                                   && forall j :: 0 <= j < k ==> exercises[j].id != ExerciseId
  {
    if |exercises| == 0 then None
    else if exercises[0].id == ExerciseId then Some(exercises[0])
    else
      var r := FindExercise(exercises[1..]);
      assert forall i :: 1 <= i < |exercises| ==> exercises[i] == exercises[1..][i - 1];
      r
  }

  /** The Previous handler: one step back, never below the first. */
  function PreviousStep(s: int): (r: int)
    ensures r >= 0 && r <= if s > 0 then s else 0
    ensures s > 0 ==> r == s - 1
  {
    if s - 1 > 0 then s - 1 else 0
  }

  /** The Next handler: one step on, never past the last of `n`. */
  function NextStep(s: int, n: nat): (r: int)
    ensures r <= n - 1
    ensures s < n - 1 ==> r == s + 1
    ensures 0 <= s < n ==> 0 <= r < n
  {
    if s + 1 < n - 1 then s + 1 else n - 1
  }

  predicate PreviousDisabled(s: int) {
    s == 0
  }

  predicate NextDisabled(s: int, n: nat) {
    s == n - 1
  }

  /** A button is disabled exactly where clicking it would leave the step
      where it is. */
  lemma DisabledExactlyWhenStuck(s: int, n: nat)
    requires 0 <= s < n
    ensures PreviousDisabled(s) <==> PreviousStep(s) == s
    ensures NextDisabled(s, n) <==> NextStep(s, n) == s
  {
  }

  /** Previous undoes Next and Next undoes Previous away from the ends. */
  lemma StepsUndo(s: int, n: nat)
    requires 0 <= s < n
    ensures !NextDisabled(s, n) ==> PreviousStep(NextStep(s, n)) == s
    ensures !PreviousDisabled(s) ==> NextStep(PreviousStep(s), n) == s
  {
  }

  /** `Math.round(((s + 1) / n) * 100)`. */
  function ProgressPercent(s: nat, n: nat): (r: int)
    requires s < n
    ensures 0 <= r <= 100
    ensures s == n - 1 ==> r == 100
  {
    RoundedPercent(s + 1, n)
  }

  /** Below 200 steps the bar reads 100% on the last step only. */
  lemma FullOnlyAtLastStep(s: nat, n: nat)
    requires s < n < 200
    ensures ProgressPercent(s, n) == 100 <==> s == n - 1
  {
  }

  /** With 200 steps the step before the last already rounds to 100%. */
  lemma FullBeforeLastStepAt200()
    ensures ProgressPercent(198, 200) == 100
  {
  }

  /** The percentage never goes down as the step goes up. */
  lemma PercentMonotone(s: nat, t: nat, n: nat)
    requires s <= t < n
    ensures ProgressPercent(s, n) <= ProgressPercent(t, n)
  {
    var a := ProgressPercent(s, n);
    var b := ProgressPercent(t, n);
    if a > b {
      MulLe(2 * n, b + 1, a);
      MulLe(200, s + 1, t + 1);
      assert false;
    }
  }

  /** The header of the progress bar. */
  function StepLabel(s: nat, n: nat): string {
    "Step " + NatToString(s + 1) + " of " + NatToString(n)
  }

  /** The page at step `s`. */
  function Render(exercise: Option<Exercise>, s: int): (v: View)
    ensures v.NotFound? <==> exercise.None?
    ensures exercise.Some? && !(0 <= s < |exercise.value.steps|) ==> v.Unrenderable?
    ensures exercise.Some? && 0 <= s < |exercise.value.steps| ==>
      var n := |exercise.value.steps|;
      && v.Showing?
      && v.step == exercise.value.steps[s]
      && v.heading == StepLabel(s, n)
      && v.percent == ProgressPercent(s, n)
      && (v.previousDisabled <==> s == 0)
      && (v.nextDisabled <==> s == n - 1)
      && (v.simulatorShown <==> s == n - 1)
  {
    match exercise
    case None => NotFound
    case Some(e) =>
      var n := |e.steps|;
      if 0 <= s < n then
        Showing(StepLabel(s, n), ProgressPercent(s, n), e.steps[s],
                PreviousDisabled(s), NextDisabled(s, n), s == n - 1)
      else Unrenderable
  }

  /** The last step shows a full bar, a disabled Next and the simulator;
      the first step shows a disabled Previous. */
  lemma EndsOfTheTutorial(e: Exercise)
    requires |e.steps| > 0
    ensures var last := Render(Some(e), |e.steps| - 1);
      last.Showing? && last.percent == 100 && last.nextDisabled && last.simulatorShown
    ensures var first := Render(Some(e), 0);
      first.Showing? && first.previousDisabled && (first.simulatorShown <==> |e.steps| == 1)
  {
  }

  class Tutorial {
    const exercise: Option<Exercise>
    var currentStep: int

    /** The step is one of the exercise's (or 0 before there is one to show). */
    ghost predicate Valid()
      reads this
    {
      0 <= currentStep && (exercise.Some? && |exercise.value.steps| > 0 ==> currentStep < |exercise.value.steps|)
    }

    constructor(exercises: seq<Exercise>)
      ensures Valid()
      ensures exercise == FindExercise(exercises) && currentStep == 0
    {
      exercise := FindExercise(exercises);
      currentStep := 0;
    }

    /** The Previous button, rendered only with a step on screen. */
    method Previous()
      requires Valid() && exercise.Some? && |exercise.value.steps| > 0
      modifies this`currentStep
      ensures Valid()
      ensures currentStep == PreviousStep(old(currentStep))
      ensures Render(exercise, currentStep).Showing?
    {
      currentStep := if currentStep - 1 > 0 then currentStep - 1 else 0;
    }

    /** The Next button, rendered only with a step on screen. */
    method Next()
      requires Valid() && exercise.Some? && |exercise.value.steps| > 0
      modifies this`currentStep
      ensures Valid()
      ensures currentStep == NextStep(old(currentStep), |exercise.value.steps|)
      ensures Render(exercise, currentStep).Showing?
    {
      var n := |exercise.value.steps|;
      currentStep := if currentStep + 1 < n - 1 then currentStep + 1 else n - 1;
    }
  }
}
