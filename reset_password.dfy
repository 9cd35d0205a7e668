/**
 * The password-reset page reached from the e-mailed link: a session check on load, and a submit
 * action that validates the two entries and asks the identity service to change the password.
 */
module ResetPassword {
  import opened Wrappers
  import opened Validation
  import Backend

  const Mismatch := "Passwords do not match"
  const TooShort := "Password must be at least 8 characters"
  const Updated := "Password updated successfully! Redirecting to login..."
  const ExpiredLink := "Invalid or expired reset link. Please request a new password reset."

  /** The first validation error, mismatch before length, or `None` when the entries may be submitted. */
  function ValidationError(password: string, confirmation: string): (r: Option<string>)
    ensures r.None? <==> password == confirmation && LongEnough(password)
    ensures password != confirmation ==> r == Some(Mismatch)
    ensures password == confirmation && !LongEnough(password) ==> r == Some(TooShort)
  {
    if password != confirmation then Some(Mismatch)
    else if !LongEnough(password) then Some(TooShort)
    else None
  }

  /** A short password that is mistyped is reported as a mismatch, not as too short. */
  lemma MismatchReportedFirst(password: string, confirmation: string)
    requires password != confirmation && |password| < MinPasswordLength
    ensures ValidationError(password, confirmation) == Some(Mismatch)
  {
  }

  class ResetForm {
    var password: string
    var confirmation: string
    var loading: bool
    var message: string
    var error: string
    /** Every password sent to the identity service, in order. */
    var updates: seq<string>
    /** Whether the delayed redirect to the portal login has been scheduled. */
    var redirectScheduled: bool

    constructor()
      ensures password == "" && confirmation == "" && !loading && message == "" && error == ""
      ensures updates == [] && !redirectScheduled
    {
      password := "";
      confirmation := "";
      loading := false;
      message := "";
      error := "";
      updates := [];
      redirectScheduled := false;
    }

    /** The load effect: without a session from the link, the page shows the expired-link error. */
    method CheckSession(hasSession: bool)
      modifies this
      ensures error == if hasSession then old(error) else ExpiredLink
      ensures password == old(password) && confirmation == old(confirmation) && loading == old(loading)
      ensures message == old(message) && updates == old(updates) && redirectScheduled == old(redirectScheduled)
    {
      if !hasSession {
        error := ExpiredLink;
      }
    }

    /**
     * The submit action. Error and message are cleared first. A validation error is shown without
     * touching loading or calling the service. Otherwise the service is called with the password;
     * its error message or the success message is shown and loading ends false. When the call
     * rejects, the handler stops with loading still true.
     */
    method Submit(answer: Backend.Outcome)
      modifies this
      ensures password == old(password) && confirmation == old(confirmation)
      ensures ValidationError(old(password), old(confirmation)).Some? ==>
                && error == ValidationError(old(password), old(confirmation)).value && message == ""
                && loading == old(loading) && updates == old(updates) && redirectScheduled == old(redirectScheduled)
      ensures ValidationError(old(password), old(confirmation)).None? ==>
                updates == old(updates) + [old(password)]
      ensures ValidationError(old(password), old(confirmation)).None? && answer.Fail? ==>
                error == answer.message && message == "" && !loading && redirectScheduled == old(redirectScheduled)
      ensures ValidationError(old(password), old(confirmation)).None? && answer.Succeed? ==>
                error == "" && message == Updated && !loading && redirectScheduled
      ensures ValidationError(old(password), old(confirmation)).None? && answer.Crash? ==>
                error == "" && message == "" && loading && redirectScheduled == old(redirectScheduled)
    {
      error := "";
      message := "";
      var problem := ValidationError(password, confirmation);
      if problem.Some? {
        error := problem.value;
        return;
      }
      loading := true;
      updates := updates + [password];
      match answer {
        case Crash =>
          return;
        case Fail(text) =>
          error := text;
        case Succeed =>
          message := Updated;
          redirectScheduled := true;
      }
      loading := false;
    }
  }
}
