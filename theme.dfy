/**
 * The colour-mode registry: a light/dark mode that starts light, is loaded
 * from `localStorage` key `appThemeMode` on mount, and is flipped by
 * `toggleColorMode`, which stores the new mode. Both keep the `dark` class
 * on the document's root element in step with the mode.
 */
module Theme {
  import opened Wrappers
  import opened WebStorage

  datatype Mode = Light | Dark

  const ThemeKey := "appThemeMode"
  const DarkClass := "dark"
  /** The mode before the load effect has run. */
  const InitialMode := Light

  /** How a mode is stored. */
  function Name(m: Mode): (s: string)
    ensures StoredMode(Some(s)) == m
  {
    match m
    case Light => "light"
    case Dark => "dark"
  }

  /** The mode a stored value selects: exactly "dark" selects dark, anything else or nothing light. */
  function StoredMode(v: Option<string>): (m: Mode)
    ensures m == Dark <==> v == Some("dark")
  {
    if v == Some("dark") then Dark else Light
  }

  function Flip(m: Mode): (r: Mode)
    ensures r != m
  {
    match m
    case Light => Dark
    case Dark => Light
  }

  /** The root element has the `dark` class exactly when the mode is dark. */
  predicate ClassAgrees(m: Mode, st: BrowserState)
  {
    DarkClass in st.rootClasses <==> m == Dark
  }

  /** Add or remove the `dark` class to match `m`; every other class and all storage are kept. */
  function Styled(st: BrowserState, m: Mode): (s: BrowserState)
    ensures ClassAgrees(m, s)
    ensures s.rootClasses - {DarkClass} == st.rootClasses - {DarkClass}
    ensures s == st.(rootClasses := s.rootClasses)
  {
    if m == Dark then st.(rootClasses := st.rootClasses + {DarkClass})
    else st.(rootClasses := st.rootClasses - {DarkClass})
  }

  /** The mode held by the registry and the browser it styles. */
  datatype View = View(mode: Mode, browser: BrowserState)

  /** The load effect: read the stored mode and style the page; nothing is written to storage. */
  function Loaded(st: BrowserState): (v: View)
    ensures v.mode == StoredMode(st.GetItem(Local, ThemeKey))
    ensures ClassAgrees(v.mode, v.browser)
    ensures v.browser == st.(rootClasses := v.browser.rootClasses)
  {
    var m := StoredMode(st.GetItem(Local, ThemeKey));
    View(m, Styled(st, m))
  }

  /** `toggleColorMode`: flip the mode, store it and style the page. */
  function Toggled(m: Mode, st: BrowserState): (v: View)
    ensures v.mode == Flip(m)
    ensures v.browser.GetItem(Local, ThemeKey) == Some(Name(v.mode))
    ensures forall k :: k != ThemeKey ==> v.browser.GetItem(Local, k) == st.GetItem(Local, k)
    ensures v.browser.cookies == st.cookies && v.browser.session == st.session
    ensures ClassAgrees(v.mode, v.browser)
  {
    var next := Flip(m);
    View(next, Styled(st.SetItem(Local, ThemeKey, Name(next)), next))
  }

  /** Toggling twice restores the mode, the class list's `dark` entry and the stored mode. */
  lemma ToggleTwice(m: Mode, st: BrowserState)
    ensures var v := Toggled(m, st);
      var w := Toggled(v.mode, v.browser);
      w.mode == m && w.browser.GetItem(Local, ThemeKey) == Some(Name(m)) && ClassAgrees(m, w.browser)
  {
  }

  /** What a toggle stores is what the next load reads: the mode survives a reload. */
  lemma ToggleThenReload(m: Mode, st: BrowserState)
    ensures var v := Toggled(m, st);
      Loaded(v.browser) == v
  {
    var v := Toggled(m, st);
    var l := Loaded(v.browser);
    assert l.mode == v.mode;
    assert l.browser.rootClasses == v.browser.rootClasses;
  }

  /** Loading twice is loading once. */
  lemma LoadIdempotent(st: BrowserState)
    ensures Loaded(Loaded(st).browser) == Loaded(st)
  {
    var v := Loaded(st);
    assert Loaded(v.browser).browser.rootClasses == v.browser.rootClasses;
  }

  /** The registry component: its mode state over the shared browser. */
  class ThemeRegistry {
    var mode: Mode
    const browser: Browser

    constructor (browser: Browser)
      ensures mode == InitialMode && this.browser == browser
    {
      mode := InitialMode;
      this.browser := browser;
    }

    /** The load effect. */
    method LoadStoredMode()
      modifies this, browser
      ensures View(mode, browser.State()) == Loaded(old(browser.State()))
    {
      var stored := browser.State().GetItem(Local, ThemeKey);
      if stored == Some("dark") {
        mode := Dark;
        browser.AddClass(DarkClass);
      } else {
        mode := Light;
        browser.RemoveClass(DarkClass);
      }
    }

    method ToggleColorMode()
      modifies this, browser
      ensures View(mode, browser.State()) == Toggled(old(mode), old(browser.State()))
    {
      var newMode := if mode == Light then Dark else Light;
      browser.SetItem(Local, ThemeKey, Name(newMode));
      if newMode == Dark {
        browser.AddClass(DarkClass);
      } else {
        browser.RemoveClass(DarkClass);
      }
      mode := newMode;
    }
  }
}
