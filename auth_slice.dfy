/** The `auth` slice of the global store and the settling of its `login`
    thunk. `User` is whatever JSON body the login endpoint returns; the
    thunk stores that whole body as the user. */
module AuthSlice {
  import opened Js

  const LoginFailed := "Login failed"

  /** The login endpoint's parsed body: the whole value (`user`, returned
      as the fulfilled payload) and its `message` field, read on failure. */
  datatype LoginBody<User> = LoginBody(user: User, message: Option<string>)

  /** How a thunk settles: `fulfilled` with a payload, or `rejected` with the
      serialized error's `message` (absent when the thrown value had none). */
  datatype Settled<T> = Fulfilled(payload: T) | Rejected(message: Option<string>)

  /** The `login` thunk body once the request has settled: an OK response
      fulfils with the body; a non-OK one throws `data.message || 'Login
      failed'`; an exception from `fetch` or `response.json()` is re-thrown
      as it is. */
  function LoginSettles<User>(reply: Reply<LoginBody<User>>): (r: Settled<User>)
    ensures r.Fulfilled? <==> reply.IsOk()
    ensures reply.IsOk() ==> r == Fulfilled(reply.data.user)
    ensures reply.Answered? && !reply.ok ==> r.Rejected? && r.message.Some? && r.message.value != ""
    ensures reply.Answered? && !reply.ok && Truthy(reply.data.message) ==> r == Rejected(reply.data.message)
    ensures reply.Answered? && !reply.ok && !Truthy(reply.data.message) ==> r == Rejected(Some(LoginFailed))
    ensures reply.Threw? ==> r.Rejected?
    ensures reply.Threw? && reply.thrown.ErrorValue? ==> r == Rejected(Some(reply.thrown.message))
    ensures reply == Threw(OtherValue) ==> r == Rejected(None)
  {
    match reply
    case Answered(ok, data) =>
      if ok then Fulfilled(data.user) else Rejected(Some(OrElse(data.message, LoginFailed)))
    case Threw(ErrorValue(m)) => Rejected(Some(m))
    case Threw(OtherValue) => Rejected(None)
  }

  /** The slice state (`AuthState`); a fresh object is `initialState`. */
  class AuthState<User> {
    var isAuthenticated: bool
    var user: Option<User>
    var loading: bool
    var error: Option<string>

    constructor ()
      ensures !isAuthenticated && user == None && !loading && error == None
    {
      isAuthenticated := false;
      user := None;
      loading := false;
      error := None;
    }

    method Logout()
      modifies this
      ensures !isAuthenticated && user == None && error == None
      ensures loading == old(loading)
    {
      isAuthenticated := false;
      user := None;
      error := None;
    }

    method LoginPending()
      modifies this
      ensures loading && error == None
      ensures isAuthenticated == old(isAuthenticated) && user == old(user)
    {
      loading := true;
      error := None;
    }

    method LoginFulfilled(payload: User)
      modifies this
      ensures !loading && isAuthenticated && user == Some(payload)
      ensures error == old(error)
    {
      loading := false;
      isAuthenticated := true;
      user := Some(payload);
    }

    method LoginRejected(message: Option<string>)
      modifies this
      ensures !loading && error == Some(OrElse(message, LoginFailed))
      ensures isAuthenticated == old(isAuthenticated) && user == old(user)
    {
      loading := false;
      error := Some(OrElse(message, LoginFailed));
    }

    /** One `dispatch(login(credentials))`: the pending reducer runs, the
        request settles as `reply` says, and the matching reducer runs. */
    method Login(reply: Reply<LoginBody<User>>)
      modifies this
      ensures !loading
      ensures reply.IsOk() ==> isAuthenticated && user == Some(reply.data.user) && error == None
      ensures !reply.IsOk() ==> isAuthenticated == old(isAuthenticated) && user == old(user)
      ensures !reply.IsOk() ==> error.Some? && error.value != ""
      ensures reply.Answered? && !reply.ok ==> error == Some(OrElse(reply.data.message, LoginFailed))
      ensures reply.Threw? && reply.thrown.ErrorValue? ==> error == Some(OrElse(Some(reply.thrown.message), LoginFailed))
      ensures reply == Threw(OtherValue) ==> error == Some(LoginFailed)
    {
      LoginPending();
      match LoginSettles(reply)
      case Fulfilled(payload) => LoginFulfilled(payload);
      case Rejected(message) => LoginRejected(message);
    }
  }
}
