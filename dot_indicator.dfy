/**
 * The wizard's step indicator: a row of dots with one highlighted. It keeps a total and a
 * current step; moves that would leave `0 <= current < total` are ignored, but changing the
 * total does not clamp the current step. Painting is left out.
 */
module DotProgress {

  /** The step after `setCurrentStep(step)`: taken only when it is a different step in range. */
  function StepAfterSet(current: int, total: int, step: int): (r: int)
    ensures r == step || r == current
    ensures r != current <==> step != current && 0 <= step < total
  {
    if step != current && step >= 0 && step < total then step else current
  }

  /** The step after `next()`: one more, unless already on the last step. */
  function StepAfterNext(current: int, total: int): (r: int)
    ensures r == current + 1 <==> current < total - 1 && current >= -1
    ensures r != current ==> r == current + 1
  {
    if current < total - 1 then StepAfterSet(current, total, current + 1) else current
  }

  /** The step after `previous()`: one fewer, unless already on the first step. */
  function StepAfterPrevious(current: int, total: int): (r: int)
    ensures r == current - 1 <==> current > 0 && current <= total
    ensures r != current ==> r == current - 1
  {
    if current > 0 then StepAfterSet(current, total, current - 1) else current
  }

  predicate InRange(current: int, total: int) {
    0 <= current < total
  }

  /** Setting a step, stepping forward and stepping back all keep the current step in range. */
  lemma MovesStayInRange(current: int, total: int, step: int)
    requires InRange(current, total)
    ensures InRange(StepAfterSet(current, total, step), total)
    ensures InRange(StepAfterNext(current, total), total)
    ensures InRange(StepAfterPrevious(current, total), total)
  {
  }

  /** Forward then back returns to the start, except from the last step, where forward does nothing. */
  lemma NextThenPrevious(current: int, total: int)
    requires InRange(current, total)
    ensures current < total - 1 ==> StepAfterPrevious(StepAfterNext(current, total), total) == current
    ensures current > 0 ==> StepAfterNext(StepAfterPrevious(current, total), total) == current
  {
  }

  /** Shrinking the total below the current step leaves the step out of range. */
  lemma TotalNotClamped(current: int, total: int)
    requires 0 <= total <= current
    ensures !InRange(current, total)
    ensures StepAfterNext(current, total) == current && StepAfterSet(current, total, current) == current
  {
  }

  class DotProgressIndicator {
    var totalSteps: int
    var currentStep: int

    /** Ten dots, the first highlighted. */
    constructor ()
      ensures totalSteps == 10 && currentStep == 0
    {
      totalSteps := 10;
      currentStep := 0;
    }

    predicate Valid()
      reads this
    {
      InRange(currentStep, totalSteps)
    }

    /** Stores the new total; the current step is kept even when it no longer fits. */
    method SetTotalSteps(steps: int)
      modifies this
      ensures totalSteps == steps && currentStep == old(currentStep)
    {
      totalSteps := steps;
    }

    method SetCurrentStep(step: int)
      modifies this
      ensures currentStep == StepAfterSet(old(currentStep), totalSteps, step)
      ensures totalSteps == old(totalSteps)
      ensures old(Valid()) ==> Valid()
    {
      if step != currentStep && step >= 0 && step < totalSteps {
        currentStep := step;
      }
    }

    method Next()
      modifies this
      ensures currentStep == StepAfterNext(old(currentStep), totalSteps)
      ensures totalSteps == old(totalSteps)
      ensures old(Valid()) ==> Valid()
    {
      if currentStep < totalSteps - 1 {
        SetCurrentStep(currentStep + 1);
      }
    }

    method Previous()
      modifies this
      ensures currentStep == StepAfterPrevious(old(currentStep), totalSteps)
      ensures totalSteps == old(totalSteps)
      ensures old(Valid()) ==> Valid()
    {
      if currentStep > 0 {
        SetCurrentStep(currentStep - 1);
      }
    }
  }
}
