/** The root component of service A: a five-step wizard whose first step is
    the company form. The current step is a counter kept within 1 ..
    `TotalSteps`; moving forward from step 1 first marks every field touched
    and validates the form, and does not move unless the form is valid. */
module RootWizard {
  import opened CompanyForm

  const TotalSteps: int := 5

  /** The step the wizard opens on. */
  const InitialStep: int := 4

  /** Where `handleNext` leaves the counter, given whether the step-1 form
      validated (only consulted on step 1). The counter either stays or
      advances by one, it advances exactly below the last step and, on step
      1, only with a valid form, and it never leaves 1 .. `TotalSteps`. */
  function NextStep(step: int, formValid: bool): (r: int)
    ensures r == step || r == step + 1
    ensures r == step + 1 <==> step < TotalSteps && (step != 1 || formValid)
    ensures 1 <= step <= TotalSteps ==> 1 <= r <= TotalSteps
  {
    if step == 1 && !formValid then step
    else if step < TotalSteps then step + 1
    else step
  }

  /** Where `handlePrevious` leaves the counter: one step back exactly when
      above the first step, never below 1 .. `TotalSteps` from inside it. */
  function PreviousStep(step: int): (r: int)
    ensures r == step || r == step - 1
    ensures r == step - 1 <==> step > 1
    ensures 1 <= step <= TotalSteps ==> 1 <= r <= TotalSteps
  {
    if step > 1 then step - 1 else step
  }

  /** What `handleNext` does to the counter: on step 1 it advances exactly
      when the form is valid, on steps 2 to 4 it advances by one, and on the
      last step it does nothing. `handlePrevious` goes back by one except on
      the first step. */
  lemma NavigationEffect(step: int, formValid: bool)
    requires 1 <= step <= TotalSteps
    ensures step == 1 ==> (NextStep(step, formValid) == 2 <==> formValid)
    ensures step == 1 ==> (NextStep(step, formValid) == 1 <==> !formValid)
    ensures 2 <= step < TotalSteps ==> NextStep(step, formValid) == step + 1
    ensures step == TotalSteps ==> NextStep(step, formValid) == step
    ensures step == 1 <==> PreviousStep(step) == step
  {
  }

  /** Going back undoes a step forward, and going forward (with a valid form)
      undoes a step back. */
  lemma BackUndoesForward(step: int)
    requires 1 <= step <= TotalSteps
    ensures step < TotalSteps ==> PreviousStep(NextStep(step, true)) == step
    ensures step > 1 ==> NextStep(PreviousStep(step), true) == step
  {
  }

  /** A button press in the wizard: "next" (with whether the step-1 form
      validates at that moment) or "previous". */
  datatype Press = NextPress(formValid: bool) | PreviousPress

  /** The counter after a sequence of presses. */
  function Navigate(step: int, presses: seq<Press>): int
    decreases |presses|
  {
    if presses == [] then step
    else
      var s := match presses[0]
        case NextPress(v) => NextStep(step, v)
        case PreviousPress => PreviousStep(step);
      Navigate(s, presses[1..])
  }

  /** However many presses, the counter never leaves 1 .. `TotalSteps`, and
      a run that starts on step 1 and never presses "next" with a valid form
      never leaves step 1. */
  lemma {:induction false} NavigateStaysInRange(step: int, presses: seq<Press>)
    requires 1 <= step <= TotalSteps
    ensures 1 <= Navigate(step, presses) <= TotalSteps
    ensures step == 1 && (forall i :: 0 <= i < |presses| ==> presses[i] != NextPress(true)) ==>
      Navigate(step, presses) == 1
    decreases |presses|
  {
    if presses != [] {
      var s := match presses[0]
        case NextPress(v) => NextStep(step, v)
        case PreviousPress => PreviousStep(step);
      NavigateStaysInRange(s, presses[1..]);
      if step == 1 && (forall i :: 0 <= i < |presses| ==> presses[i] != NextPress(true)) {
        assert presses[0] != NextPress(true);
        assert forall i :: 0 <= i < |presses[1..]| ==> presses[1..][i] == presses[i + 1];
      }
    }
  }

  /** The root component's React state. */
  class Root {
    var currentStep: int
    const form: FormState

    ghost predicate Valid()
      reads this
    {
      1 <= currentStep <= TotalSteps
    }

    /** Opens on step 4 with an empty, untouched form. */
    constructor ()
      ensures Valid() && currentStep == InitialStep
      ensures fresh(form)
      ensures form.data == EmptyForm && form.errors == NoErrors && form.touched == {}
    {
      currentStep := InitialStep;
      form := new FormState();
    }

    /** `handleNext`. On step 1: mark all five fields touched and validate;
        stay if the form is invalid. Then advance unless on the last step.
        The form's data never changes, and away from step 1 nothing of the
        form changes. */
    method HandleNext()
      requires Valid()
      modifies this, form
      ensures Valid()
      ensures currentStep == NextStep(old(currentStep), ErrorCount(Errors(old(form.data))) == 0)
      ensures form.data == old(form.data)
      ensures old(currentStep) == 1 ==> form.touched == AllFields && form.errors == Errors(form.data)
      ensures old(currentStep) == 1 ==> forall f :: form.DisplayedError(f) == ErrorAt(form.errors, f)
      ensures old(currentStep) != 1 ==> form.touched == old(form.touched) && form.errors == old(form.errors)
    {
      if currentStep == 1 {
        var valid := form.TouchAllAndValidate();
        if !valid {
          return;
        }
      }
      if currentStep < TotalSteps {
        currentStep := currentStep + 1;
      }
    }

    /** `handlePrevious`: go back one step unless on the first. */
    method HandlePrevious()
      requires Valid()
      modifies this
      ensures Valid()
      ensures currentStep == PreviousStep(old(currentStep))
    {
      if currentStep > 1 {
        currentStep := currentStep - 1;
      }
    }

    /** `handlePayment`: after the payment notice (not modelled), the same as
        `handleNext`. */
    method HandlePayment()
      requires Valid()
      modifies this, form
      ensures Valid()
      ensures currentStep == NextStep(old(currentStep), ErrorCount(Errors(old(form.data))) == 0)
      ensures form.data == old(form.data)
      ensures old(currentStep) == 1 ==> form.touched == AllFields && form.errors == Errors(form.data)
      ensures old(currentStep) != 1 ==> form.touched == old(form.touched) && form.errors == old(form.errors)
    {
      HandleNext();
    }
  }
}
