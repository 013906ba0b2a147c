/** `OnboardingTour`: the four-step welcome tour and how it ends */
module OnboardingTour {
  import opened Js

  const StepTitles: seq<string> :=
    ["Upload Your Video", "AI Detects Best Moments", "Edit & Customize", "Export & Share"]

  /** `handleNext` as a transition: the following step, or `None` when the tour
      completes from the last one */
  function NextStep(step: nat): (r: Option<nat>)
    ensures r.Some? <==> step < |StepTitles| - 1
    ensures r.Some? ==> r.value == step + 1 && r.value < |StepTitles|
  {
    if step < |StepTitles| - 1 then Some(step + 1) else None
  }

  /** Pressing next `n` times from step 0, or `None` once the tour has completed */
  function NextTimes(n: nat): (r: Option<nat>)
  {
    if n == 0 then Some(0)
    else match NextTimes(n - 1)
      case None => None
      case Some(s) => NextStep(s)
  }

  /** Next visits every step in order and completes on the fourth press */
  lemma {:induction false} NextWalksTheTour(n: nat)
    ensures n < |StepTitles| ==> NextTimes(n) == Some(n)
    ensures n >= |StepTitles| ==> NextTimes(n) == None
  {
    if n > 0 {
      NextWalksTheTour(n - 1);
    }
  }

  class Tour {
    var currentStep: nat
    var isVisible: bool
    /** `onComplete` calls scheduled 300 ms after hiding, not yet fired */
    var scheduled: nat
    /** `onComplete` calls fired */
    var completions: nat
    var navigatedTo: Option<string>

    ghost predicate Valid()
      reads this
    {
      currentStep < |StepTitles|
    }

    constructor ()
      ensures currentStep == 0 && isVisible && scheduled == 0 && completions == 0 && navigatedTo == None
      ensures Valid()
    {
      currentStep, isVisible, scheduled, completions, navigatedTo := 0, true, 0, 0, None;
    }

    /** `handleComplete`: the tour hides and `onComplete` is scheduled */
    method Complete()
      modifies this`isVisible, this`scheduled
      ensures !isVisible && scheduled == old(scheduled) + 1
    {
      isVisible := false;
      scheduled := scheduled + 1;
    }

    method Next()
      modifies this`currentStep, this`isVisible, this`scheduled
      ensures NextStep(old(currentStep)).Some? ==>
        currentStep == NextStep(old(currentStep)).value && isVisible == old(isVisible) && scheduled == old(scheduled)
      ensures NextStep(old(currentStep)).None? ==>
        currentStep == old(currentStep) && !isVisible && scheduled == old(scheduled) + 1
      ensures old(Valid()) ==> Valid()
    {
      if currentStep < |StepTitles| - 1 {
        currentStep := currentStep + 1;
      } else {
        Complete();
      }
    }

    /** `handleSkip`: completes from any step */
    method Skip()
      modifies this`isVisible, this`scheduled
      ensures !isVisible && scheduled == old(scheduled) + 1
    {
      Complete();
    }

    /** `handleGetStarted`: completes and goes to the upload page */
    method GetStarted()
      modifies this`isVisible, this`scheduled, this`navigatedTo
      ensures !isVisible && scheduled == old(scheduled) + 1 && navigatedTo == Some("/upload")
    {
      Complete();
      navigatedTo := Some("/upload");
    }

    /** A progress dot: one exists for each step */
    method SelectStep(index: nat)
      requires index < |StepTitles|
      modifies this`currentStep
      ensures currentStep == index && Valid()
    {
      currentStep := index;
    }

    /** The 300 ms timer after hiding */
    method FireCompletion()
      requires scheduled > 0
      modifies this`scheduled, this`completions
      ensures scheduled == old(scheduled) - 1 && completions == old(completions) + 1
    {
      scheduled := scheduled - 1;
      completions := completions + 1;
    }
  }

  /** Hiding always comes first: `onComplete` fires only after the tour is hidden */
  method SkipThenFire(t: Tour)
    requires t.Valid() && t.scheduled == 0 && t.completions == 0
    modifies t
    ensures !t.isVisible && t.completions == 1 && t.scheduled == 0 && t.Valid()
  {
    t.Skip();
    t.FireCompletion();
  }
}
