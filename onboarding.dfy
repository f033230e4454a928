/**
 * The onboarding wizard (`app/onboarding/page.tsx`): a four-step form whose
 * step counter moves with guarded "Next" and "Previous" buttons, and whose
 * three tag lists are edited with toggle buttons.
 */
module Onboarding {
  import opened Tags
  import opened Seqs
  import opened ProfileOptions

  const TotalSteps: int := 4

  /** The wizard's `formData`. */
  datatype OnboardingForm = OnboardingForm(
    bio: string,
    skills: seq<string>,
    interests: seq<string>,
    lookingFor: seq<string>,
    github: string,
    linkedin: string,
    portfolio: string)

  const EmptyForm: OnboardingForm := OnboardingForm("", [], [], [], "", "", "")

  /** `handleNext`: advance unless already on the last step. */
  function Next(step: int): int
  {
    if step < TotalSteps then step + 1 else step
  }

  /** `handlePrevious`: go back unless already on the first step. */
  function Previous(step: int): int
  {
    if step > 1 then step - 1 else step
  }

  /** The "Previous" button is disabled on step 1. */
  predicate PreviousDisabled(step: int)
  {
    step == 1
  }

  /** On the last step "Next" is replaced by "Complete Setup". */
  predicate ShowsComplete(step: int)
  {
    step == TotalSteps
  }

  /** Both buttons keep the step within 1..4; each moves by one unless blocked by its guard. */
  lemma StepsStayInRange(step: int)
    requires 1 <= step <= TotalSteps
    ensures 1 <= Next(step) <= TotalSteps && 1 <= Previous(step) <= TotalSteps
    ensures Next(step) == step <==> step == TotalSteps
    ensures Previous(step) == step <==> step == 1
  {
  }

  /** A disabled "Previous" is exactly the step where `handlePrevious` does nothing; the "Complete Setup" step is exactly where `handleNext` does nothing. */
  lemma ButtonsMatchGuards(step: int)
    requires 1 <= step <= TotalSteps
    ensures PreviousDisabled(step) <==> Previous(step) == step
    ensures ShowsComplete(step) <==> Next(step) == step
  {
  }

  /** "Next" then "Previous" returns to the step below the last; "Previous" then "Next" to any step above the first. */
  lemma NextPreviousRoundTrip(step: int)
    ensures 1 <= step < TotalSteps ==> Previous(Next(step)) == step
    ensures 1 < step <= TotalSteps ==> Next(Previous(step)) == step
  {
  }

  /** The step after a sequence of button presses (`true` for "Next", `false` for "Previous"). */
  function Run(step: int, presses: seq<bool>): int
    decreases |presses|
  {
    if presses == [] then step
    else Run(if presses[0] then Next(step) else Previous(step), presses[1..])
  }

  /** Whatever buttons are pressed, from any valid step the wizard stays on a valid step. */
  lemma {:induction false} RunStaysInRange(step: int, presses: seq<bool>)
    requires 1 <= step <= TotalSteps
    ensures 1 <= Run(step, presses) <= TotalSteps
    decreases |presses|
  {
    if presses != [] {
      StepsStayInRange(step);
      RunStaysInRange(if presses[0] then Next(step) else Previous(step), presses[1..]);
    }
  }

  /** `n` presses of "Next" from step `s` reach step `min(s + n, 4)`. */
  lemma {:induction false} NextPressesSaturate(step: int, presses: seq<bool>)
    requires 1 <= step <= TotalSteps
    requires forall i :: 0 <= i < |presses| ==> presses[i]
    ensures Run(step, presses) == if step + |presses| < TotalSteps then step + |presses| else TotalSteps
    decreases |presses|
  {
    if presses != [] {
      NextPressesSaturate(Next(step), presses[1..]);
    }
  }

  /** The page's state. */
  class OnboardingPage {
    var currentStep: int
    var formData: OnboardingForm

    ghost predicate Valid()
      reads this
    {
      1 <= currentStep <= TotalSteps
    }

    /** `useState(1)` and the empty form. */
    constructor ()
      ensures Valid()
      ensures currentStep == 1 && formData == EmptyForm
    {
      currentStep := 1;
      formData := EmptyForm;
    }

    /** `handleNext`. */
    method HandleNext()
      modifies this
      ensures currentStep == Next(old(currentStep))
      ensures formData == old(formData)
      ensures old(Valid()) ==> Valid()
    {
      if currentStep < TotalSteps {
        currentStep := currentStep + 1;
      }
    }

    /** `handlePrevious`. */
    method HandlePrevious()
      modifies this
      ensures currentStep == Previous(old(currentStep))
      ensures formData == old(formData)
      ensures old(Valid()) ==> Valid()
    {
      if currentStep > 1 {
        currentStep := currentStep - 1;
      }
    }

    /** `handleSkillToggle`: only `skills` changes. */
    method HandleSkillToggle(skill: string)
      modifies this
      ensures formData == old(formData).(skills := Toggle(old(formData).skills, skill))
      ensures currentStep == old(currentStep)
      ensures NoDuplicates(old(formData).skills) ==> NoDuplicates(formData.skills)
    {
      if NoDuplicates(formData.skills) {
        TogglePreservesNoDuplicates(formData.skills, skill);
      }
      formData := formData.(skills := Toggle(formData.skills, skill));
    }

    /** `handleInterestToggle`: only `interests` changes. */
    method HandleInterestToggle(interest: string)
      modifies this
      ensures formData == old(formData).(interests := Toggle(old(formData).interests, interest))
      ensures currentStep == old(currentStep)
      ensures NoDuplicates(old(formData).interests) ==> NoDuplicates(formData.interests)
    {
      if NoDuplicates(formData.interests) {
        TogglePreservesNoDuplicates(formData.interests, interest);
      }
      formData := formData.(interests := Toggle(formData.interests, interest));
    }

    /** `handleLookingForToggle`: only `lookingFor` changes. */
    method HandleLookingForToggle(option: string)
      modifies this
      ensures formData == old(formData).(lookingFor := Toggle(old(formData).lookingFor, option))
      ensures currentStep == old(currentStep)
      ensures NoDuplicates(old(formData).lookingFor) ==> NoDuplicates(formData.lookingFor)
    {
      if NoDuplicates(formData.lookingFor) {
        TogglePreservesNoDuplicates(formData.lookingFor, option);
      }
      formData := formData.(lookingFor := Toggle(formData.lookingFor, option));
    }

    /** The skill buttons still offered. */
    function OfferedSkills(): (r: seq<string>)
      reads this
      ensures forall x :: x in r <==> x in AvailableSkills && x !in formData.skills
      ensures IsSubsequence(r, AvailableSkills)
    {
      AvailableSplitsOptions(AvailableSkills, formData.skills);
      Available(AvailableSkills, formData.skills)
    }

    /** The interest buttons still offered. */
    function OfferedInterests(): (r: seq<string>)
      reads this
      ensures forall x :: x in r <==> x in AvailableInterests && x !in formData.interests
      ensures IsSubsequence(r, AvailableInterests)
    {
      AvailableSplitsOptions(AvailableInterests, formData.interests);
      Available(AvailableInterests, formData.interests)
    }

    /** The "looking for" buttons still offered. */
    function OfferedLookingFor(): (r: seq<string>)
      reads this
      ensures forall x :: x in r <==> x in LookingForOptions && x !in formData.lookingFor
      ensures IsSubsequence(r, LookingForOptions)
    {
      AvailableSplitsOptions(LookingForOptions, formData.lookingFor);
      Available(LookingForOptions, formData.lookingFor)
    }
  }
}
