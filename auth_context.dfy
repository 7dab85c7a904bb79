/**
 * The browser's login session (frontend/src/context/AuthContext.js): how a
 * reply of the login endpoint becomes a user or an error message, and the
 * `user`/`loading` state together with the `'user'` entry in local storage.
 */
module AuthContext {
  import opened Wrappers
  import AccessStore

  /**
   * The fields of a login reply's JSON body that the client reads. An absent
   * `error` is the empty string and an absent `requestAccess` is false, as
   * the client only tests them for truthiness.
   */
  datatype LoginBody = LoginBody(status: Option<string>, requestAccess: bool, error: string, user: Option<AccessStore.Profile>)

  datatype HttpReply = HttpReply(code: int, body: LoginBody) {
    /** `response.ok`. */
    predicate Ok() {
      200 <= code < 300
    }
  }

  const PendingMessage := "Your access request is still pending approval"
  const NoAccountMessage := "No account found. Please request access first."
  const FallbackMessage := "Login failed"
  /**
   * The message of the `TypeError` that the JavaScript engine (V8) throws when
   * `data.user.username` is read while `user` is missing; the catch block
   * passes it on as the login error.
   */
  const NoUserMessage := "Cannot read properties of undefined (reading 'username')"

  datatype LoginResult = LoggedInAs(user: AccessStore.Profile) | LoginFailed(message: string)

  /**
   * The error for a reply that is not ok: pending for a 403 whose status is
   * `'pending'`, no account for a 401 asking for an access request, else the
   * reply's own error, else `'Login failed'`.
   */
  function ErrorMessage(reply: HttpReply): (m: string)
    ensures m != ""
    ensures reply.code == 403 && reply.body.status == Some("pending") ==> m == PendingMessage
    ensures reply.code == 401 && reply.body.requestAccess ==> m == NoAccountMessage
    ensures !(reply.code == 403 && reply.body.status == Some("pending")) && !(reply.code == 401 && reply.body.requestAccess) ==>
      m == (if reply.body.error != "" then reply.body.error else FallbackMessage)
  {
    if reply.code == 403 && reply.body.status == Some("pending") then PendingMessage
    else if reply.code == 401 && reply.body.requestAccess then NoAccountMessage
    else if reply.body.error != "" then reply.body.error
    else FallbackMessage
  }

  /** The outcome of `login` for a reply: the user record on success, the error otherwise. */
  function LoginOutcome(reply: HttpReply): (r: LoginResult)
    ensures r.LoggedInAs? <==> reply.Ok() && reply.body.user.Some?
    ensures r.LoggedInAs? ==> r.user == reply.body.user.value
    ensures !reply.Ok() ==> r == LoginFailed(ErrorMessage(reply))
    ensures reply.Ok() && reply.body.user.None? ==> r == LoginFailed(NoUserMessage)
  {
    if !reply.Ok() then LoginFailed(ErrorMessage(reply))
    else if reply.body.user.None? then LoginFailed(NoUserMessage)
    else
      var u := reply.body.user.value;
      LoggedInAs(AccessStore.Profile(u.username, u.email, u.role))
  }

  /** The reply the login endpoint sends for each of its outcomes. */
  function Wire(r: AccessStore.LoginReply): (reply: HttpReply)
    ensures reply.code == r.Code()
  {
    match r
    case LoggedIn(p) => HttpReply(200, LoginBody(None, false, "", Some(p)))
    case MissingCredentials => HttpReply(400, LoginBody(None, false, "Username and password are required", None))
    case PendingApproval => HttpReply(403, LoginBody(Some("pending"), false, PendingMessage, None))
    case Unauthorized => HttpReply(401, LoginBody(Some("unauthorized"), true, "Invalid username or password", None))
  }

  /**
   * Against the login endpoint, the client logs in exactly on a 200 and
   * keeps the profile it was sent; a pending request and an unknown user get
   * their own messages, and a missing field shows the server's error.
   */
  lemma ClientAgreesWithServer(r: AccessStore.LoginReply)
    ensures LoginOutcome(Wire(r)).LoggedInAs? <==> r.LoggedIn?
    ensures r.LoggedIn? ==> LoginOutcome(Wire(r)) == LoggedInAs(r.user)
    ensures r.PendingApproval? ==> LoginOutcome(Wire(r)) == LoginFailed(PendingMessage)
    ensures r.Unauthorized? ==> LoginOutcome(Wire(r)) == LoginFailed(NoAccountMessage)
    ensures r.MissingCredentials? ==> LoginOutcome(Wire(r)) == LoginFailed("Username and password are required")
  {
  }

  /** The provider's state: the current user, the loading flag and the stored `'user'` entry. */
  class Session {
    var user: Option<AccessStore.Profile>
    var loading: bool
    var stored: Option<AccessStore.Profile>

    /** Before the mount effect runs: no user yet and still loading; storage holds what it held. */
    constructor(storage: Option<AccessStore.Profile>)
      ensures user == None && loading && stored == storage
    {
      user := None;
      loading := true;
      stored := storage;
    }

    /** The mount effect: a stored user is restored, and loading ends either way. */
    method Mount()
      modifies this`user, this`loading
      ensures !loading
      ensures old(stored).Some? ==> user == old(stored)
      ensures old(stored).None? ==> user == old(user)
    {
      if stored.Some? {
        user := stored;
      }
      loading := false;
    }

    /** `isAuthenticated`: there is a current user. */
    predicate IsAuthenticated()
      reads this
    {
      user.Some?
    }

    /**
     * `login`, given the reply: on success the user record is both the
     * current user and the stored entry; on failure nothing changes.
     */
    method Login(reply: HttpReply) returns (result: LoginResult)
      modifies this`user, this`stored
      ensures result == LoginOutcome(reply)
      ensures result.LoggedInAs? ==> user == Some(result.user) && stored == Some(result.user) && IsAuthenticated()
      ensures result.LoginFailed? ==> user == old(user) && stored == old(stored)
    {
      result := LoginOutcome(reply);
      if result.LoggedInAs? {
        user := Some(result.user);
        stored := Some(result.user);
      }
    }

    /** `logout`: no current user and no stored entry. */
    method Logout()
      modifies this`user, this`stored
      ensures user == None && stored == None && !IsAuthenticated()
    {
      user := None;
      stored := None;
    }
  }

  /** After logging in, a fresh mount restores the same user from storage. */
  method LoginSurvivesReload(reply: HttpReply) returns (before: Session, after: Session)
    ensures LoginOutcome(reply).LoggedInAs? ==>
      after.user == Some(LoginOutcome(reply).user) && after.IsAuthenticated() && !after.loading
  {
    before := new Session(None);
    var result := before.Login(reply);
    after := new Session(before.stored);
    after.Mount();
  }
}
