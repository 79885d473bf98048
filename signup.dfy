/** The mobile sign-up screen: four required fields, the password
    confirmation, the account-creation call, and the automatic sign-in that
    follows it. Both calls' outcomes are inputs; storing the token and
    going to the dashboard is reported as the stored token. */
module SignUp {
  import opened Js
  import opened JsText
  import opened Domain

  /** The four text fields, as typed. */
  datatype SignUpForm = SignUpForm(username: string, email: string, password: string, confirmPassword: string)

  /** The `{ username, email, password }` posted to `/api/users/`. */
  datatype SignupRequest = SignupRequest(username: string, email: string, password: string)

  /** The field of the account-creation reply read on failure. */
  datatype SignupBody = SignupBody(detail: Option<string>)

  const FieldsRequired := "All fields are required."
  const PasswordsDiffer := "Passwords do not match."
  const CreateFailed := "Failed to create account"
  const LoginAfterSignupFailed := "Account created but failed to log in"
  const CreateFailedRetry := "Failed to create account. Please try again."

  /** One of the four fields is empty or only whitespace. */
  predicate AnyBlank(f: SignUpForm)
    ensures AnyBlank(f) <==>
      AllWhitespace(f.username) || AllWhitespace(f.email) || AllWhitespace(f.password) || AllWhitespace(f.confirmPassword)
  {
    IsBlank(f.username) || IsBlank(f.email) || IsBlank(f.password) || IsBlank(f.confirmPassword)
  }

  /** The validation message, if any: the blank check runs first, then the
      passwords are compared as typed. */
  function FormError(f: SignUpForm): (r: Option<string>)
    ensures r == Some(FieldsRequired) <==> AnyBlank(f)
    ensures r == Some(PasswordsDiffer) <==> !AnyBlank(f) && f.password != f.confirmPassword
    ensures r.None? <==> !AnyBlank(f) && f.password == f.confirmPassword
  {
    if AnyBlank(f) then Some(FieldsRequired)
    else if f.password != f.confirmPassword then Some(PasswordsDiffer)
    else None
  }

  /** The confirmation is compared before trimming: a trailing space makes
      the passwords differ although the trimmed values, which would be
      sent, agree; and a blank field is reported even when the passwords
      also differ. */
  lemma {:induction false} ComparisonIsUntrimmed()
    ensures Trim("pw ") == Trim("pw")
    ensures FormError(SignUpForm("u", "e", "pw", "pw ")) == Some(PasswordsDiffer)
    ensures FormError(SignUpForm("u", " ", "pw", "other")) == Some(FieldsRequired)
  {
    TrimOfUntrimmable("pw");
    TrimOfUntrimmable("u");
    TrimOfUntrimmable("e");
    TrimOfUntrimmable("other");
    assert TrimStart("pw ") == "pw ";
    assert TrimEnd("pw ") == TrimEnd("pw");
    assert AllWhitespace(" ");
  }

  function SignupRequestFor(f: SignUpForm): (r: SignupRequest)
    ensures r.username == Trim(f.username) && r.email == Trim(f.email) && r.password == Trim(f.password)
  {
    SignupRequest(Trim(f.username), Trim(f.email), Trim(f.password))
  }

  /** The automatic sign-in uses the same trimmed username and password
      that created the account. */
  function LoginRequestFor(f: SignUpForm): (r: Credentials)
    ensures r.username == SignupRequestFor(f).username && r.password == SignupRequestFor(f).password
  {
    Credentials(Trim(f.username), Trim(f.password))
  }

  /** What the two stages let reach the `catch` clause, if anything: an
      exception of either call; an `Error` carrying `detail` or the default
      when account creation is refused; an `Error` saying the sign-in
      failed when it grants no token. */
  function Escaped(signup: Reply<SignupBody>, login: Reply<TokenBody>): (r: Option<Thrown>)
    ensures r.None? <==> signup.IsOk() && TokenGranted(login)
    ensures signup.Threw? ==> r == Some(signup.thrown)
    ensures signup.Answered? && !signup.ok ==> r == Some(ErrorValue(OrElse(signup.data.detail, CreateFailed)))
    ensures signup.IsOk() && login.Threw? ==> r == Some(login.thrown)
    ensures signup.IsOk() && login.Answered? && !TokenGranted(login) ==> r == Some(ErrorValue(LoginAfterSignupFailed))
  {
    match signup
    case Threw(t) => Some(t)
    case Answered(ok, data) =>
      if !ok then Some(ErrorValue(OrElse(data.detail, CreateFailed)))
      else match login
        case Threw(t) => Some(t)
        case Answered(_, _) => if TokenGranted(login) then None else Some(ErrorValue(LoginAfterSignupFailed))
  }

  /** `error.message || 'Failed to create account. Please try again.'`. */
  function CaughtMessage(thrown: Thrown): (r: string)
    ensures thrown.ErrorValue? ==> r == OrElse(Some(thrown.message), CreateFailedRetry)
    ensures thrown.OtherValue? ==> r == CreateFailedRetry
    ensures r != ""
  {
    match thrown
    case ErrorValue(m) => OrElse(Some(m), CreateFailedRetry)
    case OtherValue => CreateFailedRetry
  }

  /** The three messages the stages produce: a refused creation shows the
      server's `detail` or the default, a sign-in that grants no token
      shows its own message, and an exception shows its message or the
      retry text. */
  lemma {:induction false} StageMessages(signup: Reply<SignupBody>, login: Reply<TokenBody>)
    ensures signup.Answered? && !signup.ok ==>
      CaughtMessage(Escaped(signup, login).value) == OrElse(signup.data.detail, CreateFailed)
    ensures signup.IsOk() && login.Answered? && !TokenGranted(login) ==>
      CaughtMessage(Escaped(signup, login).value) == LoginAfterSignupFailed
    ensures signup == Threw(OtherValue) ==> CaughtMessage(Escaped(signup, login).value) == CreateFailedRetry
    ensures signup.IsOk() && login == Threw(OtherValue) ==> CaughtMessage(Escaped(signup, login).value) == CreateFailedRetry
  {
  }

  class SignUpScreen {
    var username: string
    var email: string
    var password: string
    var confirmPassword: string
    var isLoading: bool
    var error: string

    constructor ()
      ensures Form() == SignUpForm("", "", "", "") && !isLoading && error == ""
    {
      username, email, password, confirmPassword := "", "", "", "";
      isLoading := false;
      error := "";
    }

    function Form(): SignUpForm
      reads this
    {
      SignUpForm(username, email, password, confirmPassword)
    }

    /** The sign-up handler. `signup` and `login` are how the two POSTs
        settle (each ignored when that request is not sent). */
    method HandleSignUp(signup: Reply<SignupBody>, login: Reply<TokenBody>)
      returns (signupRequest: Option<SignupRequest>, loginRequest: Option<Credentials>, storedToken: Option<string>)
      modifies this`isLoading, this`error
      ensures !isLoading
      ensures signupRequest.Some? <==> FormError(Form()).None?
      ensures signupRequest.Some? ==> signupRequest.value == SignupRequestFor(Form())
      ensures FormError(Form()).Some? ==> error == FormError(Form()).value
      ensures loginRequest.Some? <==> signupRequest.Some? && signup.IsOk()
      ensures loginRequest.Some? ==> loginRequest.value == LoginRequestFor(Form())
      ensures storedToken.Some? <==> loginRequest.Some? && TokenGranted(login)
      ensures storedToken.Some? ==> storedToken == login.data.token && error == ""
      ensures signupRequest.Some? && storedToken.None? ==> error == CaughtMessage(Escaped(signup, login).value)
    {
      signupRequest, loginRequest, storedToken := None, None, None;
      var invalid := FormError(Form());
      if invalid.Some? {
        error := invalid.value;
      } else {
        isLoading := true;
        error := "";
        signupRequest := Some(SignupRequestFor(Form()));
        if signup.IsOk() {
          loginRequest := Some(LoginRequestFor(Form()));
          if TokenGranted(login) {
            storedToken := login.data.token;
          }
        }
        var escaped := Escaped(signup, login);
        if escaped.Some? {
          error := CaughtMessage(escaped.value);
        }
      }
      isLoading := false;
    }
  }
}
