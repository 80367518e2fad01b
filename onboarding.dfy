/**
 * The onboarding wizard (src/pages/Onboarding.tsx:8-90, 133-272): a nine-step table, the
 * step counter moved by the Next and Back buttons, the age gate that blocks the screen, and
 * the inputs that each write one profile field.
 */
module OnboardingPage {
  import opened Wrappers
  import opened UserTypes
  import UserContext
  import R = DiabetesRiskEstimator

  /** The question a step asks. */
  datatype Field =
    | Welcome | AgeGate | Age | Gender | Height | Weight | FamilyDiabetes | DailySugar | Complete

  datatype Step = Step(title: string, subtitle: string, field: Field)

  const Steps: seq<Step> := [
    Step("Welcome! 🎉", "Let's set up your GlucoGuard profile", Welcome),
    Step("Age Check", "Safety first! How old are you?", AgeGate),
    Step("How old are you?", "This helps us personalize your experience", Age),
    Step("What's your gender?", "Select what applies to you", Gender),
    Step("What's your height?", "In centimeters", Height),
    Step("What's your weight?", "In kilograms", Weight),
    Step("Family history of diabetes?", "This is private & helps assess your risk", FamilyDiabetes),
    Step("Daily sugar intake?", "How much sugar do you consume daily?", DailySugar),
    Step("You're all set! 🚀", "Let's start your health journey", Complete)
  ]

  const LastStep := |Steps| - 1

  /** The step Next moves to; the last step stays put. */
  function NextStep(step: int): (r: int)
    requires 0 <= step <= LastStep
    ensures 0 <= r <= LastStep
    ensures step < LastStep ==> r == step + 1
    ensures step == LastStep ==> r == step
  {
    if step < LastStep then step + 1 else step
  }

  /** The step Back moves to; the first step stays put. */
  function PrevStep(step: int): (r: int)
    requires 0 <= step <= LastStep
    ensures 0 <= r <= LastStep
    ensures step > 0 ==> r == step - 1
    ensures step == 0 ==> r == 0
  {
    if step > 0 then step - 1 else step
  }

  /** Back undoes Next below the last step, and Next undoes Back above the first. */
  lemma NextPrevInverse(step: int)
    requires 0 <= step <= LastStep
    ensures step < LastStep ==> PrevStep(NextStep(step)) == step
    ensures step > 0 ==> NextStep(PrevStep(step)) == step
  {
  }

  /** What the wizard shows: the block screen overrides every step. */
  datatype Screen = Blocked | Showing(field: Field)

  function ScreenFor(step: int, isBlocked: bool): (s: Screen)
    requires 0 <= step <= LastStep
    ensures isBlocked <==> s == Blocked
    ensures !isBlocked ==> s == Showing(Steps[step].field)
  {
    if isBlocked then Blocked else Showing(Steps[step].field)
  }

  /**
   * The Next button does not consult the age gate: two presses from the welcome screen show
   * the age question without the gate ever being answered.
   */
  lemma NextPassesAgeGate()
    ensures Steps[NextStep(0)].field == AgeGate
    ensures ScreenFor(NextStep(NextStep(0)), false) == Showing(Age)
  {
  }

  /** The wizard's own state, over the shared user state it writes the answers into. */
  class Wizard {
    const user: UserContext.UserProvider
    var step: int
    var isBlocked: bool

    ghost predicate Valid()
      reads this`step
    {
      0 <= step <= LastStep
    }

    constructor (user: UserContext.UserProvider)
      ensures Valid() && this.user == user && step == 0 && !isBlocked
    {
      this.user := user;
      step := 0;
      isBlocked := false;
    }

    function Shown(): Screen
      requires Valid()
      reads this`step, this`isBlocked
    {
      ScreenFor(step, isBlocked)
    }

    /**
     * `next`: advance below the last step; on the last step only mark onboarding complete
     * and report that the app navigates home.
     */
    method Next() returns (navigateHome: bool)
      requires Valid()
      modifies this`step, user`profile
      ensures Valid() && step == NextStep(old(step))
      ensures navigateHome <==> old(step) == LastStep
      ensures navigateHome ==>
        user.profile == MergeProfile(old(user.profile), EmptyProfilePatch.(onboardingComplete := Some(true)))
      ensures !navigateHome ==> user.profile == old(user.profile)
    {
      if step < LastStep {
        step := step + 1;
        navigateHome := false;
      } else {
        var _ := user.SetProfile(EmptyProfilePatch.(onboardingComplete := Some(true)));
        navigateHome := true;
      }
    }

    /** `prev`: one step back, never below the first. */
    method Prev()
      requires Valid()
      modifies this`step
      ensures Valid() && step == PrevStep(old(step))
    {
      if step > 0 {
        step := step - 1;
      }
    }

    /** The age gate: "No" blocks the wizard for good, "Yes" is the Next button. */
    method AnswerAgeGate(atLeast13: bool) returns (navigateHome: bool)
      requires Valid()
      modifies this`step, this`isBlocked, user`profile
      ensures Valid()
      ensures !atLeast13 ==> isBlocked && step == old(step) && !navigateHome
      ensures !atLeast13 ==> user.profile == old(user.profile)
      ensures atLeast13 ==> isBlocked == old(isBlocked) && step == NextStep(old(step))
      ensures atLeast13 ==> (navigateHome <==> old(step) == LastStep)
      ensures atLeast13 && navigateHome ==>
        user.profile == MergeProfile(old(user.profile), EmptyProfilePatch.(onboardingComplete := Some(true)))
      ensures atLeast13 && !navigateHome ==> user.profile == old(user.profile)
      ensures old(isBlocked) ==> isBlocked
    {
      if !atLeast13 {
        isBlocked := true;
        navigateHome := false;
      } else {
        navigateHome := Next();
      }
    }

    /** The age input. */
    method EnterAge(age: int) returns (request: Option<R.RiskPayload>)
      modifies user`profile
      ensures user.profile == old(user.profile).(age := age)
      ensures request == user.RiskEffect()
    {
      request := user.SetProfile(EmptyProfilePatch.(age := Some(age)));
    }

    /** The gender choice. */
    method ChooseGender(gender: string) returns (request: Option<R.RiskPayload>)
      modifies user`profile
      ensures user.profile == old(user.profile).(gender := gender)
      ensures request == user.RiskEffect()
    {
      request := user.SetProfile(EmptyProfilePatch.(gender := Some(gender)));
    }

    /** The height input, in centimetres. */
    method EnterHeight(height: int) returns (request: Option<R.RiskPayload>)
      modifies user`profile
      ensures user.profile == old(user.profile).(height := height)
      ensures request == user.RiskEffect()
    {
      request := user.SetProfile(EmptyProfilePatch.(height := Some(height)));
    }

    /** The weight input, in kilograms. */
    method EnterWeight(weight: int) returns (request: Option<R.RiskPayload>)
      modifies user`profile
      ensures user.profile == old(user.profile).(weight := weight)
      ensures request == user.RiskEffect()
    {
      request := user.SetProfile(EmptyProfilePatch.(weight := Some(weight)));
    }

    /** The family-history choice. */
    method ChooseFamilyDiabetes(familyDiabetes: bool) returns (request: Option<R.RiskPayload>)
      modifies user`profile
      ensures user.profile == old(user.profile).(familyDiabetes := familyDiabetes)
      ensures request == user.RiskEffect()
    {
      request := user.SetProfile(EmptyProfilePatch.(familyDiabetes := Some(familyDiabetes)));
    }

    /** The daily sugar choice. */
    method ChooseDailySugar(dailySugar: string) returns (request: Option<R.RiskPayload>)
      modifies user`profile
      ensures user.profile == old(user.profile).(dailySugar := dailySugar)
      ensures request == user.RiskEffect()
    {
      request := user.SetProfile(EmptyProfilePatch.(dailySugar := Some(dailySugar)));
    }
  }
}
