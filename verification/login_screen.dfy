/**
 * The sign-in form: a username and a password, the two field checks run by
 * `validateForm`, and `handleLogin`, which sends the credentials only when
 * both checks pass.
 */
module LoginScreen {
  import opened Common
  import opened Validation

  /** The `{ username, password }` object handed to the `login` request. */
  datatype Credentials = Credentials(username: string, password: string)

  const UsernameRequired := "Username is required"

  /** The sign-in username check: only a blank username is refused; there is no length rule. */
  function UsernameError(username: string): (e: string)
    ensures e == "" || e == UsernameRequired
  {
    if IsBlank(username) then UsernameRequired else ""
  }

  /** The username error is reported exactly when `username.trim()` is empty. */
  lemma UsernameErrorMeaning(username: string)
    ensures UsernameError(username) == UsernameRequired <==> Trim(username) == ""
    ensures UsernameError(username) == "" <==> exists k :: 0 <= k < |username| && !IsWhitespace(username[k])
  {
    BlankIffTrimEmpty(username);
  }

  /** The screen's state: the two inputs and their error texts. */
  class LoginForm {
    var username: string
    var password: string
    var usernameError: string
    var passwordError: string

    /** The initial state: the password field is prefilled with "123456". */
    constructor ()
      ensures username == "" && password == "123456"
      ensures usernameError == "" && passwordError == ""
    {
      username, password := "", "123456";
      usernameError, passwordError := "", "";
    }

    method EnterUsername(text: string)
      modifies this`username
      ensures username == text
    {
      username := text;
    }

    method EnterPassword(text: string)
      modifies this`password
      ensures password == text
    {
      password := text;
    }

    /**
     * `validateForm`: both checks run, each sets its field's error, and the
     * result is true exactly when both errors are empty.
     */
    method ValidateForm() returns (isValid: bool)
      modifies this`usernameError, this`passwordError
      ensures usernameError == UsernameError(username)
      ensures passwordError == PasswordError(password)
      ensures isValid <==> usernameError == "" && passwordError == ""
    {
      isValid := true;

      if IsBlank(username) {
        usernameError := UsernameRequired;
        isValid := false;
      } else {
        usernameError := "";
      }

      if IsBlank(password) {
        passwordError := PasswordRequired;
        isValid := false;
      } else if |password| < 6 {
        passwordError := PasswordTooShort;
        isValid := false;
      } else {
        passwordError := "";
      }
    }

    /**
     * `handleLogin`: the credentials are sent exactly when the username is
     * not blank and the password is a non-blank string of six characters or
     * more, and they are the form's inputs unchanged.
     */
    method HandleLogin() returns (request: Option<Credentials>)
      modifies this`usernameError, this`passwordError
      ensures request.Some? <==>
        Trim(username) != "" && Trim(password) != "" && |password| >= 6
      ensures request.Some? ==> request.value == Credentials(username, password)
      ensures usernameError == UsernameError(username) && passwordError == PasswordError(password)
    {
      var isValid := ValidateForm();
      UsernameErrorMeaning(username);
      PasswordErrorMeaning(password);
      if isValid {
        request := Some(Credentials(username, password));
      } else {
        request := None;
      }
    }
  }
}
