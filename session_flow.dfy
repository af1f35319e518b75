/**
 * How the pieces fit together: the login page against the mock backend, the
 * stores it writes against the stores the route guard and the dashboard
 * read, and registration against login.
 */
module SessionFlow {
  import opened Wrappers
  import opened Http
  import opened WebStorage
  import MockHandlers
  import RouteGuard
  import LoginPage
  import RegisterPage
  import Dashboard
  import DashboardFixed
  import Theme
  import UserProfile

  /** The login page posts its credentials to the mock backend and gets its response. */
  function LoginAgainstMock(email: string, password: string, keep: bool, st: BrowserState): LoginPage.Outcome
  {
    var reply := Deliver(MockHandlers.Login(LoginPage.Credentials(email, password)));
    LoginPage.Submit(email, password, keep, reply, st)
  }

  /**
   * The hard-coded pair logs in: the session goes to the chosen tier and the
   * page navigates to the dashboard.
   */
  lemma DemoLoginSucceeds(keep: bool, st: BrowserState)
    ensures var o := LoginAgainstMock(MockHandlers.DemoEmail, MockHandlers.DemoPassword, keep, st);
      && o.navigatedTo == Some(DashboardPath)
      && o.error == ""
      && o.browser.GetItem(LoginPage.SessionTier(keep), "authToken") == Some(MockHandlers.DemoToken)
  {
  }

  /**
   * Any other non-empty pair shows the server's message, writes nothing and
   * stays on the page.
   */
  lemma OtherCredentialsRejected(email: string, password: string, keep: bool, st: BrowserState)
    requires email != "" && password != ""
    requires email != MockHandlers.DemoEmail || password != MockHandlers.DemoPassword
    ensures var o := LoginAgainstMock(email, password, keep, st);
      o.error == MockHandlers.InvalidCredentials && o.browser == st && o.navigatedTo.None?
  {
    var req := LoginPage.Credentials(email, password);
    assert MockHandlers.Login(req).status == 401;
  }

  /**
   * The login page never writes the `authToken` cookie the route guard reads,
   * so a login does not change the guard's decision on any path.
   */
  lemma LoginInvisibleToGuard(email: string, password: string, keep: bool, reply: Reply, st: BrowserState, path: string)
    ensures var o := LoginPage.Submit(email, password, keep, reply, st);
      RouteGuard.Route(o.browser.GetItem(Cookies, "authToken"), path) == RouteGuard.Route(st.GetItem(Cookies, "authToken"), path)
  {
  }

  /**
   * In a browser without the `authToken` cookie, the demo login navigates to
   * `/dashboard` and the guard sends that request back to `/login`.
   */
  lemma DemoLoginBouncedByGuard(keep: bool, st: BrowserState)
    requires st.GetItem(Cookies, "authToken").None?
    ensures var o := LoginAgainstMock(MockHandlers.DemoEmail, MockHandlers.DemoPassword, keep, st);
      && o.navigatedTo == Some(DashboardPath)
      && RouteGuard.Route(o.browser.GetItem(Cookies, "authToken"), o.navigatedTo.value) == RouteGuard.Redirect(LoginPath)
  {
    var d := DashboardPath;
    assert d !in RouteGuard.PublicPaths;
    assert RouteGuard.Matches(d) by {
      var rest := d[1..];
      assert rest == "dashboard";
      forall p | p in RouteGuard.Excluded ensures !RouteGuard.StartsWithPattern(p, rest) {
        assert p[0] != rest[0] || |p| > |rest|;
      }
    }
  }

  /**
   * Even when the dashboard mounts after a login in a browser without a
   * `user` cookie, it logs out at once: the login wrote the user to web
   * storage, the dashboard reads it from the cookie jar.
   */
  lemma DashboardIgnoresStoredSession(email: string, password: string, keep: bool, reply: Reply, st: BrowserState, now: nat)
    requires st.GetItem(Cookies, "user").None?
    ensures var o := LoginPage.Submit(email, password, keep, reply, st);
      var q := Dashboard.Mounted(Dashboard.Page(o.browser, None, {}, now, None, []));
      q.navigations == [LoginPath] && q.timer.None? && q.user.None?
  {
  }

  /**
   * No login, remembered or not, arms the inactivity watchdog: a
   * non-remembered login puts `keepLoggedIn` = "false" in sessionStorage,
   * but the watchdog reads localStorage, where a login only ever writes
   * "true". Whatever then happens on the dashboard, it never logs out
   * automatically.
   */
  lemma LoginNeverArmsWatchdog(email: string, password: string, keep: bool, reply: Reply, st: BrowserState,
                               now: nat, evs: seq<Dashboard.Event>)
    requires !Dashboard.ArmsTimer(st)
    ensures var o := LoginPage.Submit(email, password, keep, reply, st);
      var q := Dashboard.Run(Dashboard.Page(o.browser, None, {}, now, None, []), evs);
      q.timer.None? && Dashboard.AutoLogouts(q.navigations) == 0
  {
    var o := LoginPage.Submit(email, password, keep, reply, st);
    assert !Dashboard.ArmsTimer(o.browser) by {
      if o.navigatedTo.Some? && keep {
        assert o.browser.GetItem(Local, "keepLoggedIn") == Some("true");
      }
    }
    Dashboard.QuietWithoutFlag(Dashboard.Page(o.browser, None, {}, now, None, []), evs);
  }

  /**
   * On the corrected dashboard, a login that is not remembered times out:
   * mounted with a user cookie, the page logs out automatically after a
   * minute of silence and never again afterwards, while the dashboard as
   * written never does.
   */
  lemma EphemeralLoginTimesOut(email: string, password: string, reply: Reply, st: BrowserState,
                               now: nat, dt: nat, evs: seq<Dashboard.Event>)
    requires email != "" && password != "" && LoginPage.Accepted(reply)
    requires Truthy(st.GetItem(Cookies, "user")) && !Dashboard.ArmsTimer(st)
    ensures var o := LoginPage.Submit(email, password, false, reply, st);
      var p := Dashboard.Page(o.browser, None, {}, now, None, []);
      && (dt < Dashboard.InactivityTimeout ==>
            DashboardFixed.Run(p, [Dashboard.Mount, Dashboard.Tick(dt)]).navigations == [])
      && (dt >= Dashboard.InactivityTimeout ==>
            var q := DashboardFixed.Run(p, [Dashboard.Mount, Dashboard.Tick(dt)]);
            q.navigations == [Dashboard.AutoLogoutPath] && Dashboard.AutoLogouts(DashboardFixed.Run(q, evs).navigations) == 1)
      && Dashboard.AutoLogouts(Dashboard.Run(p, [Dashboard.Mount, Dashboard.Tick(dt)] + evs).navigations) == 0
  {
    var o := LoginPage.Submit(email, password, false, reply, st);
    var p := Dashboard.Page(o.browser, None, {}, now, None, []);
    assert o.browser.GetItem(Session, "keepLoggedIn") == Some("false");
    assert o.browser.cookies == st.cookies;
    DashboardFixed.EphemeralSessionTimesOut(p, dt, evs);
    LoginNeverArmsWatchdog(email, password, false, reply, st, now, [Dashboard.Mount, Dashboard.Tick(dt)] + evs);
  }

  /**
   * On the corrected dashboard a remembered login is never timed out, as
   * long as no stale session flag is left in the tab.
   */
  lemma RememberedLoginNeverTimesOut(email: string, password: string, reply: Reply, st: BrowserState,
                                     now: nat, evs: seq<Dashboard.Event>)
    requires !DashboardFixed.ArmsTimer(st)
    ensures var o := LoginPage.Submit(email, password, true, reply, st);
      var q := DashboardFixed.Run(Dashboard.Page(o.browser, None, {}, now, None, []), evs);
      q.timer.None? && Dashboard.AutoLogouts(q.navigations) == 0
  {
    var o := LoginPage.Submit(email, password, true, reply, st);
    assert o.browser.session == st.session;
    DashboardFixed.QuietWithoutFlag(Dashboard.Page(o.browser, None, {}, now, None, []), evs);
  }

  /**
   * Logging out after a remembered login leaves the token and the user in
   * localStorage: only the flag is removed there.
   */
  lemma LogoutLeavesRememberedSession(st: BrowserState, body: Body, auto: bool, now: nat)
    ensures var s := LoginPage.StoreSession(st, true, body);
      var q := Dashboard.LoggedOut(Dashboard.Page(s, None, {}, now, None, []), auto);
      && q.browser.GetItem(Local, "authToken") == Some(Text(body.token))
      && q.browser.GetItem(Local, "user") == Some(UserJson(body.user))
      && q.browser.GetItem(Local, "keepLoggedIn").None?
  {
    var s := LoginPage.StoreSession(st, true, body);
    var q := Dashboard.LoggedOut(Dashboard.Page(s, None, {}, now, None, []), auto);
    assert "authToken" in q.browser.local;
    assert "user" in q.browser.local;
  }

  /**
   * Logging out after a non-remembered login removes the token and the user
   * from sessionStorage but leaves its `keepLoggedIn` = "false".
   */
  lemma LogoutLeavesEphemeralFlag(st: BrowserState, body: Body, auto: bool, now: nat)
    ensures var s := LoginPage.StoreSession(st, false, body);
      var q := Dashboard.LoggedOut(Dashboard.Page(s, None, {}, now, None, []), auto);
      && q.browser.GetItem(Session, "authToken").None?
      && q.browser.GetItem(Session, "user").None?
      && q.browser.GetItem(Session, "keepLoggedIn") == Some("false")
  {
    var s := LoginPage.StoreSession(st, false, body);
    var q := Dashboard.LoggedOut(Dashboard.Page(s, None, {}, now, None, []), auto);
    assert "keepLoggedIn" in q.browser.session;
  }

  /** A logout keeps the colour mode: its stored value and the `dark` class are untouched. */
  lemma LogoutKeepsTheme(p: Dashboard.Page, auto: bool, m: Theme.Mode)
    requires Theme.ClassAgrees(m, p.browser)
    ensures var q := Dashboard.LoggedOut(p, auto);
      && q.browser.GetItem(Local, Theme.ThemeKey) == p.browser.GetItem(Local, Theme.ThemeKey)
      && Theme.ClassAgrees(m, q.browser)
  {
    var q := Dashboard.LoggedOut(p, auto);
    assert Theme.ThemeKey !in Dashboard.LocalKeysCleared;
    if Theme.ThemeKey in p.browser.local {
      assert Theme.ThemeKey in q.browser.local;
    }
  }

  /**
   * Every form the register page lets through is accepted by the mock
   * backend, and the page then reports success and schedules the redirect.
   */
  lemma ValidFormRegisters(fullName: string, email: string, password: string, stamp: string)
    requires RegisterPage.Validate(fullName, email, password, password).None?
    ensures var req := RegisterPage.RegistrationBody(fullName, email, password);
      var r := MockHandlers.Register(req, stamp);
      && r.status == 201
      && RegisterPage.Submit(fullName, email, password, password, Deliver(r)).success == RegisterPage.RegistrationSucceeded
  {
  }

  /**
   * The length rule lives only in the page: the backend accepts a five
   * character password that the page refuses to send.
   */
  lemma LengthRuleOnlyInPage(stamp: string)
    ensures RegisterPage.Validate("Ann", "a@x.com", "short", "short") == Some(RegisterPage.PasswordTooShort)
    ensures MockHandlers.Register(RegisterPage.RegistrationBody("Ann", "a@x.com", "short"), stamp).status == 201
  {
  }

  /**
   * Registering does not create a login: right after a successful
   * registration, the login page with the same credentials shows
   * "Invalid credentials", unless they are the hard-coded pair.
   */
  lemma RegisteredUserCannotLogIn(fullName: string, email: string, password: string, stamp: string,
                                  keep: bool, st: BrowserState)
    requires RegisterPage.Validate(fullName, email, password, password).None?
    requires email != MockHandlers.DemoEmail || password != MockHandlers.DemoPassword
    ensures MockHandlers.Register(RegisterPage.RegistrationBody(fullName, email, password), stamp).status == 201
    ensures LoginAgainstMock(email, password, keep, st).error == MockHandlers.InvalidCredentials
  {
    OtherCredentialsRejected(email, password, keep, st);
  }

  /** The demo account's avatar reads "JD". */
  lemma DemoUserInitials(name: string)
    requires name == MockHandlers.DemoUser.fullName
    ensures UserProfile.Initials(Some(UserProfile.Profile(Some(name)))) == "JD"
  {
    UserProfile.DemoNameHeads();
    UserProfile.InitialsFromHeads(name, "JD");
    UserProfile.UpperFixed("JD");
  }
}
