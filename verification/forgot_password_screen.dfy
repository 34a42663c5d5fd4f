/**
 * The password-reset form: one e-mail field, checked like the registration
 * form's, and `handleResetPassword`, which posts the address and then shows
 * either a confirmation or an error text.
 */
module ForgotPasswordScreen {
  import opened Common
  import opened Validation

  const SentText := "Password reset instructions have been sent to your email."
  const FailedText := "Failed to send reset instructions. Please try again."

  /**
   * How the reset request ended: it succeeded, or it failed and the error
   * carried `response.data.message` (None when any link of that chain is missing).
   */
  datatype ResetOutcome = Sent | Failed(responseMessage: Option<string>)

  /**
   * `error.response?.data?.message || fallback`: the server's message when
   * there is a non-empty one, the fixed fallback otherwise.
   */
  function FailureText(responseMessage: Option<string>): (r: string)
    ensures r != ""
    ensures responseMessage.Some? && responseMessage.value != "" ==> r == responseMessage.value
    ensures responseMessage.None? || responseMessage.value == "" ==> r == FailedText
  {
    if responseMessage.Some? && responseMessage.value != "" then responseMessage.value else FailedText
  }

  /** The screen's state. */
  class ResetForm {
    var email: string
    var emailError: string
    var loading: bool
    var message: string
    var error: string

    /** The initial state: everything empty, nothing loading. */
    constructor ()
      ensures email == "" && emailError == "" && !loading && message == "" && error == ""
    {
      email, emailError, loading, message, error := "", "", false, "", "";
    }

    method EnterEmail(text: string)
      modifies this`email
      ensures email == text
    {
      email := text;
    }

    /** `validateForm`: sets the e-mail error and reports whether it is empty. */
    method ValidateForm() returns (isValid: bool)
      modifies this`emailError
      ensures emailError == EmailError(email)
      ensures isValid <==> emailError == ""
    {
      isValid := true;
      if IsBlank(email) {
        emailError := EmailRequired;
        isValid := false;
      } else if !IsEmail(email) {
        emailError := EmailInvalid;
        isValid := false;
      } else {
        emailError := "";
      }
    }

    /** The request starts: loading, with both earlier texts cleared. */
    method BeginRequest()
      modifies this`loading, this`error, this`message
      ensures loading && error == "" && message == ""
    {
      loading := true;
      error := "";
      message := "";
    }

    /**
     * The request ends: on success the confirmation is shown, on failure the
     * error text; either way loading stops.
     */
    method FinishRequest(outcome: ResetOutcome)
      modifies this`loading, this`error, this`message
      ensures !loading
      ensures outcome.Sent? ==> message == SentText && error == old(error)
      ensures outcome.Failed? ==> error == FailureText(outcome.responseMessage) && message == old(message)
    {
      match outcome {
        case Sent =>
          message := SentText;
        case Failed(m) =>
          error := FailureText(m);
      }
      loading := false;
    }

    /**
     * `handleResetPassword`: when the address matches the e-mail pattern it
     * is posted and the outcome decides which text is shown; otherwise only
     * the field error changes and nothing is posted.
     */
    method HandleResetPassword(outcome: ResetOutcome) returns (posted: Option<string>)
      modifies this`emailError, this`loading, this`error, this`message
      ensures emailError == EmailError(email)
      ensures posted.Some? <==> MatchesEmailRegex(email)
      ensures posted.Some? ==> posted.value == email && !loading
      ensures posted.Some? && outcome.Sent? ==> message == SentText && error == ""
      ensures posted.Some? && outcome.Failed? ==> error == FailureText(outcome.responseMessage) && message == ""
      ensures posted.None? ==> loading == old(loading) && error == old(error) && message == old(message)
    {
      var isValid := ValidateForm();
      EmailErrorMeaning(email);
      if isValid {
        BeginRequest();
        FinishRequest(outcome);
        posted := Some(email);
      } else {
        posted := None;
      }
    }
  }
}
