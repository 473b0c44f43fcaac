/**
 * The welcome modal's three-step walk-through: Next advances, and at the
 * last step asks the page to start the risk assessment; Previous goes back
 * but not below the first step.
 */
module WelcomeModal {
  /** The number of steps. */
  const StepCount: nat := 3

  const LastStep: nat := StepCount - 1

  /** What pressing the primary button does: the new step, and whether the assessment is requested. */
  datatype NextOutcome = NextOutcome(step: nat, startAssessment: bool)

  /** `handleNext`. */
  function NextStep(step: nat): (o: NextOutcome)
    ensures step < LastStep ==> o == NextOutcome(step + 1, false)
    ensures step >= LastStep ==> o.step == step && o.startAssessment
  {
    if step < StepCount - 1 then NextOutcome(step + 1, false) else NextOutcome(step, true)
  }

  /** `handlePrevious`: one step back, never below 0. */
  function PreviousStep(step: nat): (r: nat)
    ensures step > 0 ==> r == step - 1
    ensures step == 0 ==> r == 0
  {
    if step == 0 then 0 else step - 1
  }

  /** The primary button's text. */
  function PrimaryLabel(step: nat): (s: string)
    ensures s == "Get Started" <==> step == LastStep
  {
    if step == StepCount - 1 then "Get Started" else "Next"
  }

  /** The Previous button shows only after the first step. */
  predicate PreviousShown(step: nat) {
    step > 0
  }

  /** Both buttons keep the step within 0 to 2. */
  lemma StepsStayInRange(step: nat)
    requires step <= LastStep
    ensures NextStep(step).step <= LastStep
    ensures PreviousStep(step) <= LastStep
  {
  }

  /** Next then Previous returns to the same step below the last. */
  lemma NextThenPrevious(step: nat)
    requires step < LastStep
    ensures PreviousStep(NextStep(step).step) == step
  {
  }

  /** From the start, the assessment is requested on the third press of Next and not before. */
  lemma ThirdNextStartsAssessment()
    ensures !NextStep(0).startAssessment
    ensures !NextStep(NextStep(0).step).startAssessment
    ensures NextStep(NextStep(NextStep(0).step).step).startAssessment
  {
  }

  class WelcomeModalState {
    var currentStep: nat
    /** How many times the page has been asked to start the assessment. */
    var assessmentRequests: nat

    predicate Valid()
      reads this
    {
      currentStep <= LastStep
    }

    constructor ()
      ensures Valid() && currentStep == 0 && assessmentRequests == 0
    {
      currentStep := 0;
      assessmentRequests := 0;
    }

    method HandleNext()
      requires Valid()
      modifies this
      ensures Valid()
      ensures currentStep == NextStep(old(currentStep)).step
      ensures assessmentRequests == old(assessmentRequests) + (if NextStep(old(currentStep)).startAssessment then 1 else 0)
    {
      if currentStep < StepCount - 1 {
        currentStep := currentStep + 1;
      } else {
        assessmentRequests := assessmentRequests + 1;
      }
    }

    method HandlePrevious()
      requires Valid()
      modifies this
      ensures Valid()
      ensures currentStep == PreviousStep(old(currentStep))
      ensures assessmentRequests == old(assessmentRequests)
    {
      currentStep := if currentStep - 1 > 0 then currentStep - 1 else 0;
    }
  }
}
