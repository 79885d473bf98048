/** The web sign-in screen: both fields required once trimmed, the trimmed
    credentials posted to the token endpoint, and the one message shown when
    the server refuses them or cannot be reached. What the request settles
    with is an input; storing the token and going to the dashboard is
    reported as the stored token. */
module SignIn {
  import opened Js
  import opened JsText
  import opened Domain

  const MissingFields := "Please enter username and password."
  const InvalidCredentials := "Invalid credentials"
  const ConnectFailed := "Failed to connect to the server. Please try again."

  /** The validation passes: neither field is blank once trimmed. */
  predicate FilledIn(username: string, password: string)
    ensures FilledIn(username, password) <==> !AllWhitespace(username) && !AllWhitespace(password)
  {
    !IsBlank(username) && !IsBlank(password)
  }

  /** The body posted to `/api-token-auth/`. */
  function RequestFor(username: string, password: string): (r: Credentials)
    ensures r.username == Trim(username) && r.password == Trim(password)
  {
    Credentials(Trim(username), Trim(password))
  }

  /** Credentials that pass validation are sent non-empty, with no whitespace
      at either end, and unchanged by a second trim. */
  lemma {:induction false} RequestIsTrimmed(username: string, password: string)
    requires FilledIn(username, password)
    ensures var c := RequestFor(username, password);
      && c.username != "" && !IsWhitespace(c.username[0]) && !IsWhitespace(c.username[|c.username| - 1])
      && c.password != "" && !IsWhitespace(c.password[0]) && !IsWhitespace(c.password[|c.password| - 1])
      && RequestFor(c.username, c.password) == c
  {
    TrimEnds(username);
    TrimEnds(password);
    TrimIdempotent(username);
    TrimIdempotent(password);
  }

  /** The message shown when sign-in does not succeed: the server's first
      `non_field_errors` entry or the default for an answer that grants no
      token, and the connection message when the request or the body
      parse threw. */
  function FailureMessage(reply: Reply<TokenBody>): (r: string)
    requires !TokenGranted(reply)
    ensures reply.Answered? ==> r == FirstOrElse(reply.data.nonFieldErrors, InvalidCredentials)
    ensures reply.Threw? ==> r == ConnectFailed
    ensures r != ""
  {
    match reply
    case Answered(_, data) => FirstOrElse(data.nonFieldErrors, InvalidCredentials)
    case Threw(_) => ConnectFailed
  }

  /** An OK response without a token is a failure like a refusal, and the
      server's own message is preferred to the default. */
  lemma {:induction false} FailureMessageCases(data: TokenBody, ok: bool, thrown: Thrown)
    ensures ok && !Truthy(data.token) ==>
      FailureMessage(Answered(ok, data)) == FirstOrElse(data.nonFieldErrors, InvalidCredentials)
    ensures !ok && data.nonFieldErrors == None ==> FailureMessage(Answered(ok, data)) == InvalidCredentials
    ensures !ok && data.nonFieldErrors == Some(["Invalid credentials"]) ==>
      FailureMessage(Answered(ok, data)) == "Invalid credentials"
    ensures FailureMessage(Threw(thrown)) == ConnectFailed
  {
  }

  /** The three outcomes exercised for this screen: an empty form is
      refused, `testuser`/`testpass` are posted as typed, and a refusal
      with `non_field_errors: ['Invalid credentials']` shows that entry. */
  lemma {:induction false} Scenarios()
    ensures !FilledIn("", "")
    ensures FilledIn("testuser", "testpass")
    ensures RequestFor("testuser", "testpass") == Credentials("testuser", "testpass")
    ensures FailureMessage(Answered(false, TokenBody(None, Some(["Invalid credentials"])))) == "Invalid credentials"
  {
    TrimOfUntrimmable("testuser");
    TrimOfUntrimmable("testpass");
  }

  class SignInScreen {
    var username: string
    var password: string
    var isLoading: bool
    var error: string

    constructor ()
      ensures username == "" && password == "" && !isLoading && error == ""
    {
      username := "";
      password := "";
      isLoading := false;
      error := "";
    }

    /** The form's submit handler. `reply` is how the POST settles (ignored
        when no request is sent); `storedToken` is the token written to
        `localStorage` before going to `/dashboard`. */
    method HandleSignIn(reply: Reply<TokenBody>) returns (request: Option<Credentials>, storedToken: Option<string>)
      modifies this`isLoading, this`error
      ensures !isLoading
      ensures request.Some? <==> FilledIn(username, password)
      ensures request.Some? ==> request.value == RequestFor(username, password)
      ensures request.None? ==> error == MissingFields
      ensures storedToken.Some? <==> request.Some? && TokenGranted(reply)
      ensures storedToken.Some? ==> storedToken == reply.data.token && error == ""
      ensures request.Some? && !TokenGranted(reply) ==> error == FailureMessage(reply)
    {
      request, storedToken := None, None;
      if !FilledIn(username, password) {
        error := MissingFields;
      } else {
        isLoading := true;
        error := "";
        request := Some(RequestFor(username, password));
        if TokenGranted(reply) {
          storedToken := reply.data.token;
        } else {
          error := FailureMessage(reply);
        }
      }
      isLoading := false;
    }
  }
}
