/**
 * The dashboard's session handling as evidently intended: the inactivity
 * watchdog is armed for a session that is not remembered. The login page
 * records that in sessionStorage (`keepLoggedIn` = "false"), so the reset
 * reads the flag there; and the logout removes that flag together with the
 * session's token and user, so a logged-out tab is not armed again.
 * Everything else is the dashboard as written.
 */
module DashboardFixed {
  import opened Wrappers
  import opened Http
  import opened WebStorage
  import Dashboard

  type Page = Dashboard.Page
  type Event = Dashboard.Event

  /** The sessionStorage keys the corrected logout removes. */
  const SessionKeysCleared: set<string> := Dashboard.SessionKeysCleared + {"keepLoggedIn"}

  /** The session is not remembered: the reset arms the watchdog. */
  predicate ArmsTimer(st: BrowserState)
  {
    st.GetItem(Session, "keepLoggedIn") == Some("false")
  }

  /** `performLogout(auto)`, also removing the session's `keepLoggedIn` flag. */
  function LoggedOut(p: Page, auto: bool): (q: Page)
    ensures RemovedExactly(p.browser.session, q.browser.session, SessionKeysCleared)
    ensures !ArmsTimer(q.browser)
    // apart from sessionStorage, the logout as written
    ensures q.(browser := q.browser.(session := Dashboard.LoggedOut(p, auto).browser.session)) == Dashboard.LoggedOut(p, auto)
  {
    var q := Dashboard.LoggedOut(p, auto);
    q.(browser := q.browser.(session := p.browser.session - SessionKeysCleared))
  }

  /** `resetTimer` reading the flag from sessionStorage. */
  function TimerReset(p: Page): (q: Page)
    ensures ArmsTimer(p.browser) ==> q.timer == Some(p.now + Dashboard.InactivityTimeout)
    ensures !ArmsTimer(p.browser) ==> q == p
    ensures q.(timer := p.timer) == p
    ensures Dashboard.Wellformed(p) ==> Dashboard.Wellformed(q)
  {
    if ArmsTimer(p.browser) then p.(timer := Some(p.now + Dashboard.InactivityTimeout)) else p
  }

  /** The mount effect; without a user the logout clears the flag, so nothing is armed. */
  function Mounted(p: Page): (q: Page)
    ensures q.listeners == p.listeners + Dashboard.Watched && q.now == p.now
    ensures Truthy(p.browser.GetItem(Cookies, "user")) ==>
      && q.user == p.browser.GetItem(Cookies, "user") && q.browser == p.browser && q.navigations == p.navigations
      && (ArmsTimer(p.browser) ==> q.timer == Some(p.now + Dashboard.InactivityTimeout))
      && (!ArmsTimer(p.browser) ==> q.timer == p.timer)
    ensures !Truthy(p.browser.GetItem(Cookies, "user")) ==>
      q.browser == LoggedOut(p, false).browser && q.timer == p.timer && q.navigations == p.navigations + [LoginPath]
    ensures Dashboard.Wellformed(p) ==> Dashboard.Wellformed(q)
  {
    var stored := p.browser.GetItem(Cookies, "user");
    var q := if Truthy(stored) then p.(user := stored) else LoggedOut(p, false);
    TimerReset(q).(listeners := q.listeners + Dashboard.Watched)
  }

  /** An activity event reaching a registered listener. */
  function AfterActivity(p: Page, a: Dashboard.Activity): (q: Page)
    ensures a in p.listeners && ArmsTimer(p.browser) ==> q.timer == Some(p.now + Dashboard.InactivityTimeout)
    ensures !(a in p.listeners && ArmsTimer(p.browser)) ==> q == p
    ensures q.(timer := p.timer) == p
  {
    if a in p.listeners then TimerReset(p) else p
  }

  /** The clock moves forward; a reached deadline runs the corrected `performLogout(true)`. */
  function Advanced(p: Page, dt: nat): (q: Page)
    ensures q.now == p.now + dt
    ensures p.timer.Some? && p.timer.value <= p.now + dt ==>
      q == LoggedOut(p.(now := p.now + dt, timer := None), true)
    ensures !(p.timer.Some? && p.timer.value <= p.now + dt) ==> q == p.(now := p.now + dt)
    ensures Dashboard.Wellformed(p) ==> Dashboard.Wellformed(q)
  {
    var t := p.now + dt;
    if p.timer.Some? && p.timer.value <= t then
      LoggedOut(p.(now := t, timer := None), true)
    else
      p.(now := t)
  }

  /** One event on the corrected dashboard; the unmount is the one as written. */
  function Step(p: Page, e: Event): (q: Page)
    ensures q.now >= p.now
    ensures p.navigations <= q.navigations && |q.navigations| <= |p.navigations| + 1
    ensures Dashboard.Wellformed(p) ==> Dashboard.Wellformed(q)
  {
    match e
    case Mount => Mounted(p)
    case Act(a) => AfterActivity(p, a)
    case Tick(dt) => Advanced(p, dt)
    case LogoutClicked => LoggedOut(p, false)
    case Unmount => Dashboard.Unmounted(p)
  }

  function Run(p: Page, evs: seq<Event>): (q: Page)
    ensures q.now >= p.now
    ensures p.navigations <= q.navigations && |q.navigations| <= |p.navigations| + |evs|
    decreases |evs|
  {
    if evs == [] then p else Run(Step(p, evs[0]), evs[1..])
  }

  /**
   * Without the session flag and with no timer pending, no sequence of
   * events arms the watchdog or logs out automatically.
   */
  lemma {:induction false} QuietWithoutFlag(p: Page, evs: seq<Event>)
    requires !ArmsTimer(p.browser) && p.timer.None?
    ensures var q := Run(p, evs);
      !ArmsTimer(q.browser) && q.timer.None? && Dashboard.AutoLogouts(q.navigations) == Dashboard.AutoLogouts(p.navigations)
    decreases |evs|
  {
    if evs != [] {
      var q := Step(p, evs[0]);
      match evs[0] {
        case Mount =>
          if !Truthy(p.browser.GetItem(Cookies, "user")) {
            Dashboard.AutoLogoutsAppend(p.navigations, LoginPath);
          }
        case Act(a) =>
        case Tick(dt) =>
        case LogoutClicked =>
          Dashboard.AutoLogoutsAppend(p.navigations, LoginPath);
        case Unmount =>
      }
      QuietWithoutFlag(q, evs[1..]);
    }
  }

  /**
   * A session that is not remembered times out: after the mount, less than
   * a minute of silence changes nothing, a full minute logs out
   * automatically, and after that nothing ever logs out automatically again.
   */
  lemma EphemeralSessionTimesOut(p: Page, dt: nat, evs: seq<Event>)
    requires ArmsTimer(p.browser) && Truthy(p.browser.GetItem(Cookies, "user"))
    requires p.timer.None?
    ensures dt < Dashboard.InactivityTimeout ==>
      var q := Run(p, [Dashboard.Mount, Dashboard.Tick(dt)]);
      q.navigations == p.navigations && q.timer == Some(p.now + Dashboard.InactivityTimeout)
    ensures dt >= Dashboard.InactivityTimeout ==>
      var q := Run(p, [Dashboard.Mount, Dashboard.Tick(dt)]);
      && q.navigations == p.navigations + [Dashboard.AutoLogoutPath]
      && q.timer.None? && !ArmsTimer(q.browser)
      && Dashboard.AutoLogouts(Run(q, evs).navigations) == Dashboard.AutoLogouts(p.navigations) + 1
  {
    var evs2 := [Dashboard.Mount, Dashboard.Tick(dt)];
    assert evs2[1..] == [Dashboard.Tick(dt)];
    var m := Mounted(p);
    var q := Advanced(m, dt);
    assert Run(m, [Dashboard.Tick(dt)]) == Run(q, []);
    assert Run(p, evs2) == Run(m, [Dashboard.Tick(dt)]);
    if dt >= Dashboard.InactivityTimeout {
      Dashboard.AutoLogoutsAppend(p.navigations, Dashboard.AutoLogoutPath);
      QuietWithoutFlag(q, evs);
    }
  }

  /**
   * Why the logout must remove the flag as well: with only the reset
   * corrected, a logout leaves the session flag behind and the next reset
   * arms the watchdog of a logged-out page; the corrected logout does not.
   */
  lemma ReadFixAloneRearmsAfterLogout(p: Page, auto: bool)
    requires ArmsTimer(p.browser)
    ensures TimerReset(Dashboard.LoggedOut(p, auto)).timer == Some(p.now + Dashboard.InactivityTimeout)
    ensures TimerReset(LoggedOut(p, auto)).timer == p.timer
  {
    assert "keepLoggedIn" !in Dashboard.SessionKeysCleared;
    assert "keepLoggedIn" in Dashboard.LoggedOut(p, auto).browser.session;
  }
}
