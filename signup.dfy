/**
 * The sign-up form's submit handler (`app/signup/page.tsx`): two early-return
 * checks, each with its alert, before registration would go ahead.
 */
module Signup {
  datatype SignupForm = SignupForm(
    firstName: string,
    lastName: string,
    email: string,
    university: string,
    password: string,
    confirmPassword: string)

  /** What `handleSubmit` does: alert and stop, or go on to register. */
  datatype Decision = Reject(alert: string) | Proceed

  const PasswordMismatch: string := "Passwords don't match!"
  const TermsNotAccepted: string := "Please agree to the terms and conditions"

  /** `handleSubmit`: the password check comes before the terms check. */
  function HandleSubmit(form: SignupForm, agreedToTerms: bool): Decision
  {
    if form.password != form.confirmPassword then Reject(PasswordMismatch)
    else if !agreedToTerms then Reject(TermsNotAccepted)
    else Proceed
  }

  /** `disabled={!agreedToTerms}` on the submit button. */
  predicate SubmitDisabled(agreedToTerms: bool)
  {
    !agreedToTerms
  }

  /** Registration goes ahead exactly when the passwords agree and the terms are accepted. */
  lemma ProceedsIff(form: SignupForm, agreedToTerms: bool)
    ensures HandleSubmit(form, agreedToTerms) == Proceed <==> form.password == form.confirmPassword && agreedToTerms
  {
  }

  /** A password mismatch is reported whatever the terms box says. */
  lemma MismatchReportedFirst(form: SignupForm, agreedToTerms: bool)
    requires form.password != form.confirmPassword
    ensures HandleSubmit(form, agreedToTerms) == Reject(PasswordMismatch)
  {
  }

  /** With matching passwords, unaccepted terms are reported. */
  lemma TermsReported(form: SignupForm)
    requires form.password == form.confirmPassword
    ensures HandleSubmit(form, false) == Reject(TermsNotAccepted)
  {
  }

  /** Whenever the button is disabled, submitting could not have proceeded anyway. */
  lemma DisabledNeverProceeds(form: SignupForm, agreedToTerms: bool)
    requires SubmitDisabled(agreedToTerms)
    ensures HandleSubmit(form, agreedToTerms) != Proceed
  {
  }
}
