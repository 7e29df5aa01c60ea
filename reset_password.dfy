/**
 * The reset-password page: the token taken from the link, the checks `handleSubmit` makes
 * before it posts the new password, and when the submit button is enabled.
 */
module ResetPassword {
  import opened Wrappers

  const PasswordsDiffer := "Passwords do not match."
  const PasswordTooShort := "Password must be at least 8 characters."
  const TokenMissing := "Reset token is missing."
  const BadLink := "Invalid or missing password reset link."
  const ResetFailed := "Failed to reset password. The link may be invalid or expired."
  const MinPasswordLength := 8

  /** A missing or empty string is falsy. */
  predicate Present(x: Option<string>)
  {
    x.Some? && x.value != ""
  }

  /** The checks of `handleSubmit`, in order; None lets the request go. */
  function SubmitProblem(newPassword: string, confirmPassword: string, token: Option<string>): Option<string>
  {
    if newPassword != confirmPassword then Some(PasswordsDiffer)
    else if |newPassword| < MinPasswordLength then Some(PasswordTooShort)
    else if !Present(token) then Some(TokenMissing)
    else None
  }

  /** The submit button's `disabled` condition, negated. */
  predicate SubmitEnabled(isLoading: bool, newPassword: string, confirmPassword: string, token: Option<string>)
  {
    !(isLoading || newPassword == "" || newPassword != confirmPassword || |newPassword| < MinPasswordLength || !Present(token))
  }

  /**
   * A mismatch is reported before a short password and a short password before a missing
   * token; the button is enabled exactly when nothing is loading and the checks pass, so an
   * enabled button always leads to a request.
   */
  lemma SubmitMeaning(isLoading: bool, newPassword: string, confirmPassword: string, token: Option<string>)
    ensures SubmitProblem(newPassword, confirmPassword, token).None? <==>
              newPassword == confirmPassword && |newPassword| >= MinPasswordLength && Present(token)
    ensures newPassword != confirmPassword ==> SubmitProblem(newPassword, confirmPassword, token) == Some(PasswordsDiffer)
    ensures newPassword == confirmPassword && |newPassword| < MinPasswordLength ==>
              SubmitProblem(newPassword, confirmPassword, token) == Some(PasswordTooShort)
    ensures SubmitEnabled(isLoading, newPassword, confirmPassword, token) <==>
              !isLoading && SubmitProblem(newPassword, confirmPassword, token).None?
  {
  }

  /** The body of `POST /reset-password`. */
  datatype Request = Request(token: string, newPassword: string)

  /** How the request ends: the server's message on success, its error message (if any) on failure. */
  datatype Response = Succeeded(successMessage: string) | Failed(errorMessage: Option<string>)

  class ResetPasswordPage {
    var token: Option<string>
    var newPassword: string
    var confirmPassword: string
    var isLoading: bool
    var resetSuccess: bool
    var error: Option<string>

    /** The page after its effect has read the `token` query parameter. */
    constructor(tokenFromUrl: Option<string>)
      ensures Present(tokenFromUrl) ==> token == tokenFromUrl && error == None
      ensures !Present(tokenFromUrl) ==> token == None && error == Some(BadLink)
      ensures newPassword == "" && confirmPassword == "" && !isLoading && !resetSuccess
      ensures ShowsErrorScreen() <==> !Present(tokenFromUrl)
    {
      newPassword, confirmPassword, isLoading, resetSuccess := "", "", false, false;
      if Present(tokenFromUrl) {
        token, error := tokenFromUrl, None;
      } else {
        token, error := None, Some(BadLink);
      }
    }

    /** The page shows its error screen instead of the form. */
    predicate ShowsErrorScreen()
      reads this
    {
      error.Some? && error.value != "" && !resetSuccess
    }

    /**
     * `handleSubmit`: a failed check only shows a notice and sends nothing; otherwise the
     * error is cleared, the request is sent, and its outcome decides success or the error.
     */
    method HandleSubmit(response: Response) returns (notice: Option<string>, sent: Option<Request>)
      modifies this
      ensures var problem := SubmitProblem(newPassword, confirmPassword, token);
              (problem.Some? ==> notice == problem && sent == None && error == old(error) && resetSuccess == old(resetSuccess)) &&
              (problem.None? <==> sent.Some?)
      ensures sent.Some? ==> sent.value == Request(token.value, newPassword) && !isLoading
      ensures sent.Some? && response.Succeeded? ==>
                resetSuccess && error == None && notice == Some(response.successMessage)
      ensures sent.Some? && response.Failed? ==>
                var message := if Present(response.errorMessage) then response.errorMessage.value else ResetFailed;
                error == Some(message) && notice == Some(message) && resetSuccess == old(resetSuccess)
      ensures token == old(token) && newPassword == old(newPassword) && confirmPassword == old(confirmPassword)
    {
      var problem := SubmitProblem(newPassword, confirmPassword, token);
      if problem.Some? {
        return problem, None;
      }
      isLoading, error := true, None;
      sent := Some(Request(token.value, newPassword));
      // The `finally` block: loading ends however the request ends.
      isLoading := false;
      match response
      case Succeeded(m) =>
        resetSuccess := true;
        notice := Some(m);
      case Failed(m) =>
        var message := if Present(m) then m.value else ResetFailed;
        error := Some(message);
        notice := Some(message);
    }
  }
}
