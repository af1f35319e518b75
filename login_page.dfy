/**
 * The login form's submit handler: a guard on the two fields, one request to
 * `/api/login`, and on success the session written to `localStorage` ("keep
 * me logged in") or to `sessionStorage` (otherwise), never to cookies.
 */
module LoginPage {
  import opened Wrappers
  import opened Http
  import opened WebStorage

  const EmptyFieldsError := "Please enter both email and password."
  const LoginFailedError := "Login failed. Please check your credentials."
  const UnexpectedError := "An unexpected error occurred. Please try again."

  /** What one submit does: the request sent (if any), the storage after it, the error shown and where it navigated. */
  datatype Outcome = Outcome(sent: Option<Fields>, browser: BrowserState, error: string, navigatedTo: Option<string>)

  /** The store that receives the session. */
  function SessionTier(keepLoggedIn: bool): (t: Tier)
    ensures t != Cookies
    ensures t == Local <==> keepLoggedIn
  {
    if keepLoggedIn then Local else Session
  }

  /**
   * The three writes of a successful login: `authToken`, `user` and the
   * `keepLoggedIn` flag, all to the chosen tier.
   */
  function StoreSession(st: BrowserState, keepLoggedIn: bool, body: Body): (s: BrowserState)
    ensures var t := SessionTier(keepLoggedIn);
      && s.GetItem(t, "authToken") == Some(Text(body.token))
      && s.GetItem(t, "user") == Some(UserJson(body.user))
      && s.GetItem(t, "keepLoggedIn") == Some(if keepLoggedIn then "true" else "false")
      && (forall k :: k !in {"authToken", "user", "keepLoggedIn"} ==> s.GetItem(t, k) == st.GetItem(t, k))
    ensures s.Store(SessionTier(!keepLoggedIn)) == st.Store(SessionTier(!keepLoggedIn))
    ensures s.cookies == st.cookies && s.rootClasses == st.rootClasses
  {
    var t := SessionTier(keepLoggedIn);
    st.SetItem(t, "authToken", Text(body.token))
      .SetItem(t, "user", UserJson(body.user))
      .SetItem(t, "keepLoggedIn", if keepLoggedIn then "true" else "false")
  }

  /** The request body sent: exactly the two credentials. */
  function Credentials(email: string, password: string): (req: Fields)
    ensures req.Keys == {"email", "password"}
    ensures Field(req, "email") == Some(email) && Field(req, "password") == Some(password)
  {
    map["email" := email, "password" := password]
  }

  /** The response was received, parsed as JSON and had an ok status. */
  predicate Accepted(reply: Reply)
  {
    reply.Received? && reply.body.Some? && IsOk(reply.status)
  }

  /** `handleSubmit` as a function of the form fields, the server's reply and the storage before it. */
  function Submit(email: string, password: string, keepLoggedIn: bool, reply: Reply, st: BrowserState): (o: Outcome)
    // the guard: no request and no write when a field is empty
    ensures o.sent.Some? <==> email != "" && password != ""
    ensures o.sent.None? ==> o.error == EmptyFieldsError && o.browser == st && o.navigatedTo.None?
    ensures o.sent.Some? ==> o.sent.value == Credentials(email, password)
    // navigation and storage writes only on an accepted response
    ensures o.navigatedTo.Some? <==> o.sent.Some? && Accepted(reply)
    ensures o.navigatedTo.Some? ==>
      o.navigatedTo.value == DashboardPath && o.error == "" && o.browser == StoreSession(st, keepLoggedIn, reply.body.value)
    ensures o.navigatedTo.None? ==> o.browser == st && o.error != ""
    // the error shown on the two failure paths
    ensures o.sent.Some? && (reply.NetworkError? || reply.body.None?) ==> o.error == UnexpectedError
    ensures o.sent.Some? && reply.Received? && reply.body.Some? && !IsOk(reply.status) ==>
      o.error == OrElse(reply.body.value.message, LoginFailedError)
    // the login page never writes a cookie
    ensures o.browser.cookies == st.cookies
  {
    if email == "" || password == "" then
      Outcome(None, st, EmptyFieldsError, None)
    else
      var req := Credentials(email, password);
      match reply
      case NetworkError => Outcome(Some(req), st, UnexpectedError, None)
      case Received(status, body) =>
        if body.None? then Outcome(Some(req), st, UnexpectedError, None)
        else if IsOk(status) then Outcome(Some(req), StoreSession(st, keepLoggedIn, body.value), "", Some(DashboardPath))
        else Outcome(Some(req), st, OrElse(body.value.message, LoginFailedError), None)
  }

  /** The login form's state and its submit handler, writing to the shared browser. */
  class LoginForm {
    var email: string
    var password: string
    var keepLoggedIn: bool
    var error: string
    var loading: bool
    const browser: Browser

    constructor (browser: Browser)
      ensures email == "" && password == "" && !keepLoggedIn
      ensures error == "" && !loading && this.browser == browser
    {
      email, password, keepLoggedIn := "", "", false;
      error, loading := "", false;
      this.browser := browser;
    }

    /**
     * `handleSubmit`. The server's reply to the request is an input; `sent`
     * is the request body posted to `/api/login`.
     */
    method HandleSubmit(reply: Reply) returns (sent: Option<Fields>, navigatedTo: Option<string>)
      modifies this`error, this`loading, browser
      ensures var o := Submit(email, password, keepLoggedIn, reply, old(browser.State()));
        && sent == o.sent && navigatedTo == o.navigatedTo
        && error == o.error && browser.State() == o.browser
      ensures !loading
    {
      error := "";
      loading := true;
      navigatedTo := None;
      if email == "" || password == "" {
        error := EmptyFieldsError;
        loading := false;
        sent := None;
        return;
      }
      sent := Some(Credentials(email, password));
      match reply {
        case NetworkError =>
          error := UnexpectedError;
        case Received(status, body) =>
          if body.None? {
            error := UnexpectedError;
          } else if IsOk(status) {
            var t := SessionTier(keepLoggedIn);
            browser.SetItem(t, "authToken", Text(body.value.token));
            browser.SetItem(t, "user", UserJson(body.value.user));
            browser.SetItem(t, "keepLoggedIn", if keepLoggedIn then "true" else "false");
            navigatedTo := Some(DashboardPath);
          } else {
            error := OrElse(body.value.message, LoginFailedError);
          }
      }
      loading := false;
    }
  }
}
