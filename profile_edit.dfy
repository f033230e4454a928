/**
 * The profile editor (`app/profile/edit/page.tsx`): `formData` starts empty,
 * is overwritten from the signed-in user when there is one, and its three
 * tag lists are edited with toggle buttons.
 */
module ProfileEdit {
  import opened Wrappers
  import opened Tags
  import opened Seqs
  import opened ProfileOptions

  /** The fields of the signed-in user that the editor reads; any of them may be missing. */
  datatype AuthUser = AuthUser(
    firstName: Option<string>,
    lastName: Option<string>,
    bio: Option<string>,
    university: Option<string>,
    skills: Option<seq<string>>,
    interests: Option<seq<string>>,
    lookingFor: Option<seq<string>>,
    github: Option<string>,
    linkedin: Option<string>,
    portfolio: Option<string>)

  /** The editor's `formData`. */
  datatype ProfileForm = ProfileForm(
    firstName: string,
    lastName: string,
    bio: string,
    university: string,
    skills: seq<string>,
    interests: seq<string>,
    lookingFor: seq<string>,
    github: string,
    linkedin: string,
    portfolio: string)

  /** The initial `useState` value. */
  const EmptyForm: ProfileForm := ProfileForm("", "", "", "", [], [], [], "", "", "")

  /** The `setFormData` argument of the effect: `user.x || ""` for strings, `user.x || []` for lists. */
  function FromUser(u: AuthUser): ProfileForm
  {
    ProfileForm(
      u.firstName.GetOr(""), u.lastName.GetOr(""), u.bio.GetOr(""), u.university.GetOr(""),
      u.skills.GetOr([]), u.interests.GetOr([]), u.lookingFor.GetOr([]),
      u.github.GetOr(""), u.linkedin.GetOr(""), u.portfolio.GetOr(""))
  }

  /** A user record with every field present, holding the form's values (what `updateProfile` is handed). */
  function AsUser(f: ProfileForm): AuthUser
  {
    AuthUser(
      Some(f.firstName), Some(f.lastName), Some(f.bio), Some(f.university),
      Some(f.skills), Some(f.interests), Some(f.lookingFor),
      Some(f.github), Some(f.linkedin), Some(f.portfolio))
  }

  /** Each present field is copied unchanged; each missing one becomes "" or []. */
  lemma FromUserCopiesOrDefaults(u: AuthUser)
    ensures u.firstName.Some? ==> FromUser(u).firstName == u.firstName.value
    ensures u.firstName.None? ==> FromUser(u).firstName == ""
    ensures u.lastName.Some? ==> FromUser(u).lastName == u.lastName.value
    ensures u.lastName.None? ==> FromUser(u).lastName == ""
    ensures u.bio.Some? ==> FromUser(u).bio == u.bio.value
    ensures u.bio.None? ==> FromUser(u).bio == ""
    ensures u.university.Some? ==> FromUser(u).university == u.university.value
    ensures u.university.None? ==> FromUser(u).university == ""
    ensures u.skills.Some? ==> FromUser(u).skills == u.skills.value
    ensures u.skills.None? ==> FromUser(u).skills == []
    ensures u.interests.Some? ==> FromUser(u).interests == u.interests.value
    ensures u.interests.None? ==> FromUser(u).interests == []
    ensures u.lookingFor.Some? ==> FromUser(u).lookingFor == u.lookingFor.value
    ensures u.lookingFor.None? ==> FromUser(u).lookingFor == []
    ensures u.github.Some? ==> FromUser(u).github == u.github.value
    ensures u.github.None? ==> FromUser(u).github == ""
    ensures u.linkedin.Some? ==> FromUser(u).linkedin == u.linkedin.value
    ensures u.linkedin.None? ==> FromUser(u).linkedin == ""
    ensures u.portfolio.Some? ==> FromUser(u).portfolio == u.portfolio.value
    ensures u.portfolio.None? ==> FromUser(u).portfolio == ""
  {
  }

  /** Loading a user saved from a form gives that form back. */
  lemma LoadSavedRoundTrip(f: ProfileForm)
    ensures FromUser(AsUser(f)) == f
  {
  }

  /** A user with nothing filled in loads as the empty form, the same as having no user. */
  lemma BlankUserLoadsEmptyForm(u: AuthUser)
    requires u == AuthUser(None, None, None, None, None, None, None, None, None, None)
    ensures FromUser(u) == EmptyForm
  {
  }

  /** The page's state. */
  class ProfileEditPage {
    var formData: ProfileForm

    constructor ()
      ensures formData == EmptyForm
    {
      formData := EmptyForm;
    }

    /** The `useEffect` on `user`: overwrite the whole form when signed in, otherwise keep it. */
    method LoadFrom(user: Option<AuthUser>)
      modifies this
      ensures user.Some? ==> formData == FromUser(user.value)
      ensures user.None? ==> formData == old(formData)
    {
      if user.Some? {
        formData := FromUser(user.value);
      }
    }

    /** `handleSkillToggle`: only `skills` changes. */
    method HandleSkillToggle(skill: string)
      modifies this
      ensures formData == old(formData).(skills := Toggle(old(formData).skills, skill))
      ensures NoDuplicates(old(formData).skills) ==> NoDuplicates(formData.skills)
    {
      if NoDuplicates(formData.skills) {
        TogglePreservesNoDuplicates(formData.skills, skill);
      }
      formData := formData.(skills := Toggle(formData.skills, skill));
    }

    /** `handleInterestToggle`: only `interests` changes. */
    method HandleInterestToggle(interest: string)
      modifies this
      ensures formData == old(formData).(interests := Toggle(old(formData).interests, interest))
      ensures NoDuplicates(old(formData).interests) ==> NoDuplicates(formData.interests)
    {
      if NoDuplicates(formData.interests) {
        TogglePreservesNoDuplicates(formData.interests, interest);
      }
      formData := formData.(interests := Toggle(formData.interests, interest));
    }

    /** `handleLookingForToggle`: only `lookingFor` changes. */
    method HandleLookingForToggle(option: string)
      modifies this
      ensures formData == old(formData).(lookingFor := Toggle(old(formData).lookingFor, option))
      ensures NoDuplicates(old(formData).lookingFor) ==> NoDuplicates(formData.lookingFor)
    {
      if NoDuplicates(formData.lookingFor) {
        TogglePreservesNoDuplicates(formData.lookingFor, option);
      }
      formData := formData.(lookingFor := Toggle(formData.lookingFor, option));
    }

    /** The skill buttons still offered. */
    function OfferedSkills(): (r: seq<string>)
      reads this
      ensures forall x :: x in r <==> x in AvailableSkills && x !in formData.skills
      ensures IsSubsequence(r, AvailableSkills)
    {
      AvailableSplitsOptions(AvailableSkills, formData.skills);
      Available(AvailableSkills, formData.skills)
    }

    /** The interest buttons still offered. */
    function OfferedInterests(): (r: seq<string>)
      reads this
      ensures forall x :: x in r <==> x in AvailableInterests && x !in formData.interests
      ensures IsSubsequence(r, AvailableInterests)
    {
      AvailableSplitsOptions(AvailableInterests, formData.interests);
      Available(AvailableInterests, formData.interests)
    }

    /** The "looking for" buttons still offered. */
    function OfferedLookingFor(): (r: seq<string>)
      reads this
      ensures forall x :: x in r <==> x in LookingForOptions && x !in formData.lookingFor
      ensures IsSubsequence(r, LookingForOptions)
    {
      AvailableSplitsOptions(LookingForOptions, formData.lookingFor);
      Available(LookingForOptions, formData.lookingFor)
    }
  }
}
