/**
 * The registration form: its fields, the four field checks run by
 * `validateForm`, and `handleRegister`, which sends a registration request
 * only when every check passes.
 */
module RegisterScreen {
  import opened Common
  import opened Validation

  /** The two roles the form offers. */
  datatype Role = JobSeeker | Recruiter

  function RoleName(role: Role): (r: string)
    ensures r == "JOBSEEKER" || r == "RECRUITER"
    ensures r == "RECRUITER" <==> role == Recruiter
  {
    match role
    case JobSeeker => "JOBSEEKER"
    case Recruiter => "RECRUITER"
  }

  /** The `userData` handed to the `register` request. */
  datatype RegisterRequest = RegisterRequest(username: string, email: string, password: string, role: string)

  const UsernameRequired := "Username is required"
  const UsernameTooShort := "Username must be at least 3 characters"
  const ConfirmRequired := "Please confirm your password"
  const PasswordMismatch := "Passwords do not match"

  /**
   * The username check: blank is an error, and so is a length below three
   * (counted before trimming, so surrounding spaces count).
   */
  function UsernameError(username: string): (e: string)
    ensures e == "" || e == UsernameRequired || e == UsernameTooShort
  {
    if IsBlank(username) then UsernameRequired
    else if |username| < 3 then UsernameTooShort
    else ""
  }

  /** The username error is empty exactly when three or more characters, not all whitespace, were typed. */
  lemma UsernameErrorMeaning(username: string)
    ensures UsernameError(username) == "" <==>
      |username| >= 3 && exists k :: 0 <= k < |username| && !IsWhitespace(username[k])
    ensures UsernameError(username) == UsernameRequired <==> Trim(username) == ""
  {
    BlankIffTrimEmpty(username);
  }

  /** The confirmation check: it must be filled in and equal the password. */
  function ConfirmPasswordError(confirmPassword: string, password: string): (e: string)
    ensures e == "" || e == ConfirmRequired || e == PasswordMismatch
  {
    if IsBlank(confirmPassword) then ConfirmRequired
    else if confirmPassword != password then PasswordMismatch
    else ""
  }

  /** The confirmation error is empty exactly when it repeats a password that is not all whitespace. */
  lemma ConfirmPasswordErrorMeaning(confirmPassword: string, password: string)
    ensures ConfirmPasswordError(confirmPassword, password) == "" <==>
      confirmPassword == password && exists k :: 0 <= k < |password| && !IsWhitespace(password[k])
    ensures ConfirmPasswordError(confirmPassword, password) == ConfirmRequired <==> Trim(confirmPassword) == ""
  {
    BlankIffTrimEmpty(confirmPassword);
  }

  /** The screen's state: the inputs and one error text per field. */
  class RegisterForm {
    var username: string
    var email: string
    var password: string
    var confirmPassword: string
    var role: Role
    var usernameError: string
    var emailError: string
    var passwordError: string
    var confirmPasswordError: string

    /** The inputs alone: validation never changes them. */
    function Inputs(): (string, string, string, string, Role)
      reads this
    {
      (username, email, password, confirmPassword, role)
    }

    /** The initial state: the password field is prefilled with "123456". */
    constructor ()
      ensures Inputs() == ("", "", "123456", "", JobSeeker)
      ensures usernameError == emailError == passwordError == confirmPasswordError == ""
    {
      username, email, password, confirmPassword := "", "", "123456", "";
      role := JobSeeker;
      usernameError, emailError, passwordError, confirmPasswordError := "", "", "", "";
    }

    method EnterUsername(text: string)
      modifies this`username
      ensures username == text
    {
      username := text;
    }

    /**
     * Typing into the e-mail field stores the text lower-cased, which never
     * changes what the e-mail check says about it.
     */
    method EnterEmail(text: string)
      modifies this`email
      ensures email == ToLower(text)
      ensures EmailError(email) == EmailError(text)
    {
      email := ToLower(text);
      LowerCaseKeepsEmailError(text);
    }

    method EnterPassword(text: string)
      modifies this`password
      ensures password == text
    {
      password := text;
    }

    method EnterConfirmPassword(text: string)
      modifies this`confirmPassword
      ensures confirmPassword == text
    {
      confirmPassword := text;
    }

    method SelectRole(r: Role)
      modifies this`role
      ensures role == r
    {
      role := r;
    }

    /** The username block of `validateForm`. `ok` is false when it reports an error. */
    method CheckUsername() returns (ok: bool)
      modifies this`usernameError
      ensures usernameError == UsernameError(username)
      ensures ok <==> usernameError == ""
    {
      if IsBlank(username) {
        usernameError := UsernameRequired;
        ok := false;
      } else if |username| < 3 {
        usernameError := UsernameTooShort;
        ok := false;
      } else {
        usernameError := "";
        ok := true;
      }
    }

    /** The e-mail block of `validateForm`: `IsEmail` is the pattern test. `ok` is false when it reports an error. */
    method CheckEmail() returns (ok: bool)
      modifies this`emailError
      ensures emailError == EmailError(email)
      ensures ok <==> emailError == ""
    {
      if IsBlank(email) {
        emailError := EmailRequired;
        ok := false;
      } else if !IsEmail(email) {
        emailError := EmailInvalid;
        ok := false;
      } else {
        emailError := "";
        ok := true;
      }
    }

    /** The password block of `validateForm`. `ok` is false when it reports an error. */
    method CheckPassword() returns (ok: bool)
      modifies this`passwordError
      ensures passwordError == PasswordError(password)
      ensures ok <==> passwordError == ""
    {
      if IsBlank(password) {
        passwordError := PasswordRequired;
        ok := false;
      } else if |password| < 6 {
        passwordError := PasswordTooShort;
        ok := false;
      } else {
        passwordError := "";
        ok := true;
      }
    }

    /** The confirmation block of `validateForm`. `ok` is false when it reports an error. */
    method CheckConfirmPassword() returns (ok: bool)
      modifies this`confirmPasswordError
      ensures confirmPasswordError == ConfirmPasswordError(confirmPassword, password)
      ensures ok <==> confirmPasswordError == ""
    {
      if IsBlank(confirmPassword) {
        confirmPasswordError := ConfirmRequired;
        ok := false;
      } else if confirmPassword != password {
        confirmPasswordError := PasswordMismatch;
        ok := false;
      } else {
        confirmPasswordError := "";
        ok := true;
      }
    }

    /**
     * `validateForm`: all four checks run (an early error does not skip the
     * later ones), each sets its field's error, and the result is true
     * exactly when all four errors are empty.
     */
    method ValidateForm() returns (isValid: bool)
      modifies this`usernameError, this`emailError, this`passwordError, this`confirmPasswordError
      ensures usernameError == UsernameError(username)
      ensures emailError == EmailError(email)
      ensures passwordError == PasswordError(password)
      ensures confirmPasswordError == ConfirmPasswordError(confirmPassword, password)
      ensures isValid <==> usernameError == "" && emailError == "" && passwordError == "" && confirmPasswordError == ""
    {
      isValid := true;
      var ok := CheckUsername();
      if !ok {
        isValid := false;
      }
      ok := CheckEmail();
      if !ok {
        isValid := false;
      }
      ok := CheckPassword();
      if !ok {
        isValid := false;
      }
      ok := CheckConfirmPassword();
      if !ok {
        isValid := false;
      }
    }

    /**
     * `handleRegister`: the request is sent only when validation passes, and
     * then it carries the form's inputs and one of the two role names.
     */
    method HandleRegister() returns (request: Option<RegisterRequest>)
      modifies this`usernameError, this`emailError, this`passwordError, this`confirmPasswordError
      ensures request.Some? <==> UsernameError(username) == "" && EmailError(email) == ""
                                 && PasswordError(password) == "" && ConfirmPasswordError(confirmPassword, password) == ""
      ensures request.Some? ==> request.value == RegisterRequest(username, email, password, RoleName(role))
      ensures request.Some? ==> MatchesEmailRegex(email) && |password| >= 6 && confirmPassword == password
      ensures usernameError == UsernameError(username) && emailError == EmailError(email)
      ensures passwordError == PasswordError(password) && confirmPasswordError == ConfirmPasswordError(confirmPassword, password)
    {
      var isValid := ValidateForm();
      EmailErrorMeaning(email);
      PasswordErrorMeaning(password);
      ConfirmPasswordErrorMeaning(confirmPassword, password);
      if isValid {
        request := Some(RegisterRequest(username, email, password, RoleName(role)));
      } else {
        request := None;
      }
    }
  }
}
