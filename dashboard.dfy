/**
 * The dashboard's session handling: the logout that clears the session keys,
 * the inactivity timer that logs out after a minute without activity, the
 * activity listeners that push that timer back, and the mount/unmount effect
 * that sets all of this up and tears it down. Time is a virtual clock in
 * milliseconds; the timer is one slot holding the deadline of the pending
 * timeout, if any.
 */
module Dashboard {
  import opened Wrappers
  import opened Http
  import opened WebStorage

  const InactivityTimeout: nat := 60000
  const AutoLogoutPath := "/login?autologgedout=true"

  /** The keys `performLogout` removes, store by store. */
  const CookieKeysCleared: set<string> := {"authToken", "user"}
  const LocalKeysCleared: set<string> := {"keepLoggedIn"}
  const SessionKeysCleared: set<string> := {"authToken", "user"}

  /** The window events that count as activity. */
  datatype Activity = MouseMove | KeyPress | Scroll | Click
  const Watched: set<Activity> := {MouseMove, KeyPress, Scroll, Click}

  /**
   * The dashboard and the browser it runs in: storage, the timer slot (the
   * deadline of the pending logout), the activity listeners registered on
   * the window, the clock, the user read at mount and every navigation the
   * page has asked for.
   */
  datatype Page = Page(
    browser: BrowserState,
    timer: Option<nat>,
    listeners: set<Activity>,
    now: nat,
    user: Option<string>,
    navigations: seq<string>)

  /** A pending deadline lies in the future, at most one timeout away. */
  predicate Wellformed(p: Page)
  {
    p.timer.Some? ==> p.now < p.timer.value <= p.now + InactivityTimeout
  }

  /** The only storage value under which `resetTimer` arms the timer. */
  predicate ArmsTimer(st: BrowserState)
  {
    st.GetItem(Local, "keepLoggedIn") == Some("false")
  }

  /** `performLogout(auto)`. */
  function LoggedOut(p: Page, auto: bool): (q: Page)
    ensures RemovedExactly(p.browser.cookies, q.browser.cookies, CookieKeysCleared)
    ensures RemovedExactly(p.browser.local, q.browser.local, LocalKeysCleared)
    ensures RemovedExactly(p.browser.session, q.browser.session, SessionKeysCleared)
    ensures q.browser.rootClasses == p.browser.rootClasses
    ensures !ArmsTimer(q.browser)
    ensures q.navigations == p.navigations + [if auto then AutoLogoutPath else LoginPath]
    // the timer and the listeners are left as they were
    ensures q.timer == p.timer && q.listeners == p.listeners && q.now == p.now && q.user == p.user
  {
    var b := p.browser;
    p.(browser := b.(cookies := b.cookies - CookieKeysCleared,
                     local := b.local - LocalKeysCleared,
                     session := b.session - SessionKeysCleared),
       navigations := p.navigations + [if auto then AutoLogoutPath else LoginPath])
  }

  /**
   * `resetTimer`: only when localStorage holds `keepLoggedIn` = "false" is the
   * pending timeout, if any, replaced by one fresh full timeout.
   */
  function TimerReset(p: Page): (q: Page)
    ensures ArmsTimer(p.browser) ==> q.timer == Some(p.now + InactivityTimeout)
    ensures !ArmsTimer(p.browser) ==> q.timer == p.timer
    ensures q.(timer := p.timer) == p
    ensures Wellformed(p) ==> Wellformed(q)
  {
    if ArmsTimer(p.browser) then p.(timer := Some(p.now + InactivityTimeout)) else p
  }

  /**
   * The mount effect: read the `user` cookie (logging out at once when it is
   * missing or empty), then `resetTimer`, then register the four listeners.
   */
  function Mounted(p: Page): (q: Page)
    ensures q.listeners == p.listeners + Watched && q.now == p.now
    // with a user the session is kept, and `resetTimer` arms a full timeout exactly when the flag is set
    ensures Truthy(p.browser.GetItem(Cookies, "user")) ==>
      && q.user == p.browser.GetItem(Cookies, "user") && q.browser == p.browser && q.navigations == p.navigations
      && (ArmsTimer(p.browser) ==> q.timer == Some(p.now + InactivityTimeout))
      && (!ArmsTimer(p.browser) ==> q.timer == p.timer)
    ensures !Truthy(p.browser.GetItem(Cookies, "user")) ==>
      q.browser == LoggedOut(p, false).browser && q.user == p.user
    // without a user the logout runs first and removes the flag, so no timer is armed
    ensures !Truthy(p.browser.GetItem(Cookies, "user")) ==>
      q.timer == p.timer && q.navigations == p.navigations + [LoginPath] && !ArmsTimer(q.browser)
    ensures Wellformed(p) ==> Wellformed(q)
  {
    var stored := p.browser.GetItem(Cookies, "user");
    var q := if Truthy(stored) then p.(user := stored) else LoggedOut(p, false);
    TimerReset(q).(listeners := q.listeners + Watched)
  }

  /** An activity event: the handler runs only while it is registered. */
  function AfterActivity(p: Page, a: Activity): (q: Page)
    ensures a in p.listeners && ArmsTimer(p.browser) ==> q.timer == Some(p.now + InactivityTimeout)
    ensures !(a in p.listeners && ArmsTimer(p.browser)) ==> q == p
    ensures q.(timer := p.timer) == p
  {
    if a in p.listeners then TimerReset(p) else p
  }

  /**
   * The clock moves forward by `dt`; a pending timeout whose deadline is
   * reached fires and runs `performLogout(true)`.
   */
  function Advanced(p: Page, dt: nat): (q: Page)
    ensures q.now == p.now + dt
    ensures p.timer.Some? && p.timer.value <= p.now + dt ==>
      q == LoggedOut(p.(now := p.now + dt, timer := None), true)
    ensures !(p.timer.Some? && p.timer.value <= p.now + dt) ==> q == p.(now := p.now + dt)
    ensures Wellformed(p) ==> Wellformed(q)
  {
    var t := p.now + dt;
    if p.timer.Some? && p.timer.value <= t then
      LoggedOut(p.(now := t, timer := None), true)
    else
      p.(now := t)
  }

  /** The effect's cleanup: clear the pending timeout and remove the four listeners. */
  function Unmounted(p: Page): (q: Page)
    ensures q.timer.None?
    ensures forall a :: a !in q.listeners
    ensures q.(timer := p.timer, listeners := p.listeners) == p
  {
    AllActivitiesWatched();
    p.(timer := None, listeners := p.listeners - Watched)
  }

  /** The four listeners cover every kind of activity. */
  lemma AllActivitiesWatched()
    ensures forall a :: a in Watched
  {
    forall a: Activity ensures a in Watched {
      match a
      case MouseMove =>
      case KeyPress =>
      case Scroll =>
      case Click =>
    }
  }

  /** Everything that can happen to the dashboard. */
  datatype Event = Mount | Act(kind: Activity) | Tick(dt: nat) | LogoutClicked | Unmount

  /**
   * One event. The clock never goes back, the navigation history only
   * grows, by at most one entry, and a well-formed timer slot stays so.
   */
  function Step(p: Page, e: Event): (q: Page)
    ensures q.now >= p.now
    ensures p.navigations <= q.navigations && |q.navigations| <= |p.navigations| + 1
    ensures Wellformed(p) ==> Wellformed(q)
  {
    match e
    case Mount => Mounted(p)
    case Act(a) => AfterActivity(p, a)
    case Tick(dt) => Advanced(p, dt)
    case LogoutClicked => LoggedOut(p, false)
    case Unmount => Unmounted(p)
  }

  /** A sequence of events: the clock is monotone and earlier navigations are never rewritten. */
  function Run(p: Page, evs: seq<Event>): (q: Page)
    ensures q.now >= p.now
    ensures p.navigations <= q.navigations && |q.navigations| <= |p.navigations| + |evs|
    decreases |evs|
  {
    if evs == [] then p else Run(Step(p, evs[0]), evs[1..])
  }

  /** How many automatic logouts a navigation history records. */
  function AutoLogouts(navs: seq<string>): nat
  {
    if navs == [] then 0
    else AutoLogouts(navs[..|navs| - 1]) + (if navs[|navs| - 1] == AutoLogoutPath then 1 else 0)
  }

  lemma AutoLogoutsAppend(navs: seq<string>, x: string)
    ensures AutoLogouts(navs + [x]) == AutoLogouts(navs) + (if x == AutoLogoutPath then 1 else 0)
  {
    assert (navs + [x])[..|navs|] == navs;
  }

  /** Running two sequences one after the other is running their concatenation. */
  lemma {:induction false} RunAppend(p: Page, a: seq<Event>, b: seq<Event>)
    ensures Run(p, a + b) == Run(Run(p, a), b)
    decreases |a|
  {
    if a != [] {
      assert (a + b)[0] == a[0];
      assert (a + b)[1..] == a[1..] + b;
      RunAppend(Step(p, a[0]), a[1..], b);
      assert Run(p, a + b) == Run(Step(p, a[0]), a[1..] + b);
      assert Run(p, a) == Run(Step(p, a[0]), a[1..]);
    } else {
      assert a + b == b;
    }
  }

  /** Every event keeps a pending deadline in the future and within one timeout. */
  lemma {:induction false} RunKeepsWellformed(p: Page, evs: seq<Event>)
    requires Wellformed(p)
    ensures Wellformed(Run(p, evs))
    decreases |evs|
  {
    if evs != [] {
      RunKeepsWellformed(Step(p, evs[0]), evs[1..]);
    }
  }

  /**
   * Once localStorage lacks `keepLoggedIn` = "false" and no timer is pending,
   * no sequence of dashboard events ever arms the timer or logs out
   * automatically: nothing on the dashboard writes that flag.
   */
  lemma {:induction false} QuietWithoutFlag(p: Page, evs: seq<Event>)
    requires !ArmsTimer(p.browser) && p.timer.None?
    ensures var q := Run(p, evs);
      !ArmsTimer(q.browser) && q.timer.None? && AutoLogouts(q.navigations) == AutoLogouts(p.navigations)
    decreases |evs|
  {
    if evs != [] {
      var q := Step(p, evs[0]);
      match evs[0] {
        case Mount =>
          if !Truthy(p.browser.GetItem(Cookies, "user")) {
            AutoLogoutsAppend(p.navigations, LoginPath);
          }
        case Act(a) =>
        case Tick(dt) =>
        case LogoutClicked =>
          AutoLogoutsAppend(p.navigations, LoginPath);
        case Unmount =>
      }
      QuietWithoutFlag(q, evs[1..]);
    }
  }

  /**
   * When the deadline is reached the timeout fires: the session keys are
   * cleared, the page goes to the auto-logout URL, and, whatever happens on
   * the dashboard afterwards, it never logs out automatically again.
   */
  lemma ExpiryLogsOutOnce(p: Page, dt: nat, evs: seq<Event>)
    requires p.timer.Some? && p.timer.value <= p.now + dt
    ensures var q := Step(p, Tick(dt));
      && q.navigations == p.navigations + [AutoLogoutPath]
      && q.timer.None?
      && q.browser.GetItem(Cookies, "authToken").None? && q.browser.GetItem(Cookies, "user").None?
      && q.browser.GetItem(Session, "authToken").None? && q.browser.GetItem(Session, "user").None?
      && AutoLogouts(Run(q, evs).navigations) == AutoLogouts(p.navigations) + 1
  {
    var q := Step(p, Tick(dt));
    AutoLogoutsAppend(p.navigations, AutoLogoutPath);
    QuietWithoutFlag(q, evs);
  }

  /**
   * `performLogout` leaves the timer pending: it neither clears the timeout
   * nor removes the listeners. Only the unmount that follows the navigation
   * clears it; if the deadline is reached first, the timeout fires and logs
   * out a second time.
   */
  lemma PendingTimerOutlivesManualLogout(p: Page)
    requires Wellformed(p) && p.timer.Some?
    ensures var q := Run(p, [LogoutClicked, Tick(p.timer.value - p.now)]);
      q.navigations == p.navigations + [LoginPath, AutoLogoutPath]
  {
    var q1 := Step(p, LogoutClicked);
    assert [LogoutClicked, Tick(p.timer.value - p.now)][1..] == [Tick(p.timer.value - p.now)];
    var q2 := Step(q1, Tick(p.timer.value - p.now));
    assert Run(q1, [Tick(p.timer.value - p.now)]) == q2;
  }

  /** Only activity and clock events, the two sources the window keeps after unmount. */
  predicate Background(evs: seq<Event>)
  {
    forall i :: 0 <= i < |evs| ==> evs[i].Act? || evs[i].Tick?
  }

  lemma {:induction false} SilentWhileDetached(p: Page, evs: seq<Event>)
    requires p.timer.None? && forall a :: a !in p.listeners
    requires Background(evs)
    ensures var q := Run(p, evs);
      q.browser == p.browser && q.navigations == p.navigations && q.timer.None?
    decreases |evs|
  {
    if evs != [] {
      assert evs[0].Act? || evs[0].Tick?;
      var q := Step(p, evs[0]);
      assert Background(evs[1..]) by {
        forall i | 0 <= i < |evs[1..]| ensures evs[1..][i].Act? || evs[1..][i].Tick? {
          assert evs[1..][i] == evs[i + 1];
        }
      }
      SilentWhileDetached(q, evs[1..]);
    }
  }

  /**
   * After unmount no activity and no passage of time changes storage or
   * navigates: the timer was cleared and the listeners removed.
   */
  lemma NothingFiresAfterUnmount(p: Page, evs: seq<Event>)
    requires Background(evs)
    ensures var q := Run(Unmounted(p), evs);
      q.browser == p.browser && q.navigations == p.navigations && q.timer.None?
  {
    SilentWhileDetached(Unmounted(p), evs);
  }

  /**
   * The Logout button followed by the unmount its navigation causes: one
   * manual logout, the timer cleared, and nothing that happens afterwards
   * logs out automatically.
   */
  lemma LogoutThenUnmountQuiet(p: Page, evs: seq<Event>)
    requires Background(evs)
    ensures var q := Run(p, [LogoutClicked, Unmount] + evs);
      && q.navigations == p.navigations + [LoginPath]
      && q.timer.None?
      && AutoLogouts(q.navigations) == AutoLogouts(p.navigations)
  {
    var l := LoggedOut(p, false);
    RunAppend(p, [LogoutClicked, Unmount], evs);
    assert [LogoutClicked, Unmount][1..] == [Unmount];
    assert Run(p, [LogoutClicked, Unmount]) == Unmounted(l);
    NothingFiresAfterUnmount(l, evs);
    AutoLogoutsAppend(p.navigations, LoginPath);
  }

  /** Logging out twice leaves storage as logging out once. */
  lemma LogoutIdempotent(p: Page, first: bool, second: bool)
    ensures LoggedOut(LoggedOut(p, first), second).browser == LoggedOut(p, first).browser
  {
    var b := LoggedOut(p, first).browser;
    assert b.cookies - CookieKeysCleared == b.cookies;
    assert b.local - LocalKeysCleared == b.local;
    assert b.session - SessionKeysCleared == b.session;
  }

  /**
   * With the flag set and a user cookie present: mount arms a full timeout,
   * activity at 59 s pushes the deadline back to a full minute, 59.999 s of
   * silence after that is not enough, and one more millisecond logs out.
   */
  lemma InactivityScenario(st: BrowserState, start: nat)
    requires Truthy(st.GetItem(Cookies, "user")) && ArmsTimer(st)
    ensures var p := Run(Page(st, None, {}, start, None, []), [Mount, Tick(59000), Act(Click), Tick(59999)]);
      && p.timer == Some(start + 59000 + InactivityTimeout)
      && p.navigations == []
      && Step(p, Tick(1)).navigations == [AutoLogoutPath]
  {
    var p0 := Page(st, None, {}, start, None, []);
    var evs := [Mount, Tick(59000), Act(Click), Tick(59999)];
    var p1 := Mounted(p0);
    assert p1.timer == Some(start + InactivityTimeout);
    var p2 := Advanced(p1, 59000);
    var p3 := AfterActivity(p2, Click);
    assert p3.timer == Some(start + 59000 + InactivityTimeout);
    var p4 := Advanced(p3, 59999);
    assert evs[1..] == [Tick(59000), Act(Click), Tick(59999)];
    assert evs[1..][1..] == [Act(Click), Tick(59999)];
    assert evs[1..][1..][1..] == [Tick(59999)];
    assert Run(p0, evs) == p4;
  }

  /** The dashboard page: its timer slot, listeners and clock, over the shared browser. */
  class DashboardPage {
    const browser: Browser
    var timer: Option<nat>
    var listeners: set<Activity>
    var now: nat
    var user: Option<string>
    var navigations: seq<string>

    function State(): Page
      reads this, browser
    {
      Page(browser.State(), timer, listeners, now, user, navigations)
    }

    constructor (browser: Browser, now: nat)
      ensures this.browser == browser
      ensures State() == Page(browser.State(), None, {}, now, None, [])
    {
      this.browser := browser;
      timer, listeners, this.now, user, navigations := None, {}, now, None, [];
    }

    method PerformLogout(auto: bool)
      modifies this, browser
      ensures State() == LoggedOut(old(State()), auto)
    {
      ghost var before := browser.State();
      browser.RemoveItem(Cookies, "authToken");
      browser.RemoveItem(Cookies, "user");
      assert browser.cookies == before.cookies - CookieKeysCleared;
      browser.RemoveItem(Local, "keepLoggedIn");
      browser.RemoveItem(Session, "authToken");
      browser.RemoveItem(Session, "user");
      assert browser.session == before.session - SessionKeysCleared;
      assert browser.State() == LoggedOut(old(State()), auto).browser;
      if auto {
        navigations := navigations + [AutoLogoutPath];
      } else {
        navigations := navigations + [LoginPath];
      }
    }

    method ResetTimer()
      modifies this
      ensures State() == TimerReset(old(State()))
    {
      var keepLoggedIn := browser.State().GetItem(Local, "keepLoggedIn");
      if keepLoggedIn == Some("false") {
        timer := None;  // clearTimeout
        timer := Some(now + InactivityTimeout);
      }
    }

    /** The window delivers one activity event to the listeners registered for it. */
    method HandleActivity(a: Activity)
      modifies this
      ensures State() == AfterActivity(old(State()), a)
    {
      if a in listeners {
        ResetTimer();
      }
    }

    /** The mount effect. */
    method Mount()
      modifies this, browser
      ensures State() == Mounted(old(State()))
    {
      var storedUser := browser.State().GetItem(Cookies, "user");
      if Truthy(storedUser) {
        user := storedUser;
      } else {
        PerformLogout(false);
      }
      ResetTimer();
      listeners := listeners + {MouseMove};
      listeners := listeners + {KeyPress};
      listeners := listeners + {Scroll};
      listeners := listeners + {Click};
    }

    /** The virtual clock moves forward; a due timeout fires. */
    method AdvanceClock(dt: nat)
      modifies this, browser
      ensures State() == Advanced(old(State()), dt)
    {
      now := now + dt;
      if timer.Some? && timer.value <= now {
        timer := None;
        PerformLogout(true);
      }
    }

    /** The effect's cleanup. */
    method Unmount()
      modifies this
      ensures State() == Unmounted(old(State()))
    {
      timer := None;  // clearTimeout
      listeners := listeners - {MouseMove};
      listeners := listeners - {KeyPress};
      listeners := listeners - {Scroll};
      listeners := listeners - {Click};
    }
  }
}
