/**
 * The two-step sign-up form: account details, then an access code. Each validator clears the
 * error and sets the first problem it finds.
 */
module Signup {
  import opened Wrappers
  import Js

  datatype Form = Form(name: string, email: string, password: string, confirmPassword: string, accessCode: string)

  const FillAllFields := "Please fill in all fields: Name, Email, and Password."
  const PasswordsDiffer := "Passwords do not match"
  const PasswordTooShort := "Password must be at least 8 characters"
  const InvalidEmail := "Please enter a valid email address."
  const AccessCodeRequired := "Access code is required"
  const UnknownFailure := "Failed to create account. An unknown error occurred."
  const MinPasswordLength := 8

  /** `!s.trim()`: nothing but white space (see `BlankTrims`). */
  predicate Blank(s: string)
  {
    Js.AllSpace(s)
  }

  lemma BlankTrims(s: string)
    ensures Blank(s) <==> Js.Trim(s) == ""
  {
    Js.TrimBlank(s);
  }

  /** `validateStep1`: the first problem with the account details, or None. */
  function Step1Error(f: Form): Option<string>
  {
    if Blank(f.name) || Blank(f.email) || Blank(f.password) then Some(FillAllFields)
    else if f.password != f.confirmPassword then Some(PasswordsDiffer)
    else if |f.password| < MinPasswordLength then Some(PasswordTooShort)
    else if !Js.Contains(f.email, "@") || !Js.Contains(f.email, ".") then Some(InvalidEmail)
    else None
  }

  /** `validateStep2`. */
  function Step2Error(f: Form): (r: Option<string>)
    ensures r.None? <==> !Blank(f.accessCode)
  {
    if Blank(f.accessCode) then Some(AccessCodeRequired) else None
  }

  /**
   * The details pass exactly when no field is blank, the password is confirmed and at least
   * eight long and the address holds an '@' and a '.'. The checks run in order: a blank field is reported before a mismatch, a mismatch before a
   * short password, and a short password before a malformed address.
   */
  lemma Step1Order(f: Form)
    ensures Step1Error(f).None? <==>
              (!Blank(f.name) && !Blank(f.email) && !Blank(f.password) && f.password == f.confirmPassword &&
               |f.password| >= MinPasswordLength && Js.Contains(f.email, "@") && Js.Contains(f.email, "."))
    ensures Blank(f.name) || Blank(f.email) || Blank(f.password) ==> Step1Error(f) == Some(FillAllFields)
    ensures Step1Error(f) == Some(PasswordsDiffer) <==>
              (!Blank(f.name) && !Blank(f.email) && !Blank(f.password) && f.password != f.confirmPassword)
    ensures Step1Error(f) == Some(PasswordTooShort) <==>
              (!Blank(f.name) && !Blank(f.email) && !Blank(f.password) && f.password == f.confirmPassword &&
               |f.password| < MinPasswordLength)
    ensures Step1Error(f) == Some(InvalidEmail) ==> !Js.Contains(f.email, "@") || !Js.Contains(f.email, ".")
  {
    // The four messages have different lengths, so they are different.
    assert |FillAllFields| == 53 && |PasswordsDiffer| == 22 && |PasswordTooShort| == 38 && |InvalidEmail| == 35;
  }

  /** How a failed sign-up was reported: an error with a message, a thrown string, or other. */
  datatype Failure = WithMessage(message: string) | Thrown(text: string) | Other

  function FailureText(e: Failure): string
  {
    match e
    case WithMessage(m) => if m != "" then m else UnknownFailure
    case Thrown(t) => t
    case Other => UnknownFailure
  }

  /** The details `signup(email, password, name, accessCode)` receives. */
  datatype Request = Request(email: string, password: string, name: string, accessCode: string)

  /** What the final submit sends: the details, only when both steps pass. */
  function SubmitRequest(f: Form): Option<Request>
  {
    if Step1Error(f).None? && Step2Error(f).None? then Some(Request(f.email, f.password, f.name, f.accessCode))
    else None
  }

  /** The error the final submit leaves on the form. */
  function SubmitError(f: Form, failure: Option<Failure>): string
  {
    if Step1Error(f).Some? then Step1Error(f).value
    else if Step2Error(f).Some? then Step2Error(f).value
    else if failure.Some? then FailureText(failure.value)
    else ""
  }

  /**
   * The sign-up is sent exactly when the details pass and the access code is not blank; a
   * blank code alone leaves "Access code is required", and a sent request that fails shows
   * its message, or the generic one when it has none.
   */
  lemma SubmitMeaning(f: Form, failure: Option<Failure>)
    ensures SubmitRequest(f).Some? <==> Step1Error(f).None? && !Blank(f.accessCode)
    ensures Step1Error(f).None? && Blank(f.accessCode) ==> SubmitError(f, failure) == AccessCodeRequired
    ensures SubmitRequest(f).Some? && failure == Some(Other) ==> SubmitError(f, failure) == UnknownFailure
    ensures SubmitRequest(f).Some? && failure == Some(WithMessage("")) ==> SubmitError(f, failure) == UnknownFailure
    ensures SubmitRequest(f).Some? && failure.None? ==> SubmitError(f, failure) == ""
  {
  }

  class SignupPage {
    var step: int
    var form: Form
    var error: string

    constructor()
      ensures step == 1 && form == Form("", "", "", "", "") && error == ""
    {
      step, form, error := 1, Form("", "", "", "", ""), "";
    }

    method Edit(f: Form)
      modifies this
      ensures form == f && step == old(step) && error == old(error)
    {
      form := f;
    }

    /** `handleNextStep`: on to step 2 exactly when the account details pass. */
    method HandleNextStep()
      modifies this
      ensures Step1Error(form) == None ==> step == 2 && error == ""
      ensures Step1Error(form).Some? ==> step == old(step) && error == Step1Error(form).value
      ensures form == old(form)
    {
      var e := Step1Error(form);
      if e.Some? {
        error := e.value;
        return;
      }
      step, error := 2, "";
    }

    /**
     * `handleFinalSubmit`: re-checks the details (back to step 1 when they fail), then the
     * access code, and only then sends the sign-up; `failure` is how the request ends.
     */
    method HandleFinalSubmit(failure: Option<Failure>) returns (sent: Option<Request>)
      modifies this
      ensures sent == SubmitRequest(old(form))
      ensures step == (if Step1Error(old(form)).Some? then 1 else old(step))
      ensures error == SubmitError(old(form), failure)
      ensures form == old(form)
    {
      var e1 := Step1Error(form);
      if e1.Some? {
        step, error := 1, e1.value;
        return None;
      }
      var e2 := Step2Error(form);
      if e2.Some? {
        error := e2.value;
        return None;
      }
      error := "";
      sent := Some(Request(form.email, form.password, form.name, form.accessCode));
      if failure.Some? {
        error := FailureText(failure.value);
      }
    }

    /** `handleBack`. */
    method HandleBack()
      modifies this
      ensures step == 1 && error == "" && form == old(form)
    {
      step, error := 1, "";
    }
  }
}
