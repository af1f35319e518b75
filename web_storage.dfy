/**
 * The browser state the pages share: the cookie jar, `localStorage`,
 * `sessionStorage` (all string-to-string stores) and the class list of the
 * document's root element. One value type describes it, and one class holds
 * it so that every page writes to the same stores.
 */
module WebStorage {
  import opened Wrappers

  /** The three key-value stores a page can read and write. */
  datatype Tier = Cookies | Local | Session

  datatype BrowserState = BrowserState(
    cookies: map<string, string>,
    local: map<string, string>,
    session: map<string, string>,
    rootClasses: set<string>)
  {
    function Store(t: Tier): map<string, string>
    {
      match t
      case Cookies => cookies
      case Local => local
      case Session => session
    }

    /** `getItem(key)`: the stored string, or `None` (JavaScript's `null`). */
    function GetItem(t: Tier, key: string): Option<string>
    {
      Lookup(Store(t), key)
    }

    /** `setItem(key, value)`: writes one key of one store and nothing else. */
    function SetItem(t: Tier, key: string, value: string): (s: BrowserState)
      ensures s.GetItem(t, key) == Some(value)
      ensures forall k :: k != key ==> s.GetItem(t, k) == GetItem(t, k)
      ensures forall u :: u != t ==> s.Store(u) == Store(u)
      ensures s.rootClasses == rootClasses
    {
      match t
      case Cookies => this.(cookies := cookies[key := value])
      case Local => this.(local := local[key := value])
      case Session => this.(session := session[key := value])
    }

    /** `removeItem(key)`: deletes one key of one store and nothing else. */
    function RemoveItem(t: Tier, key: string): (s: BrowserState)
      ensures s.GetItem(t, key) == None
      ensures forall k :: k != key ==> s.GetItem(t, k) == GetItem(t, k)
      ensures forall u :: u != t ==> s.Store(u) == Store(u)
      ensures s.rootClasses == rootClasses
    {
      match t
      case Cookies => this.(cookies := cookies - {key})
      case Local => this.(local := local - {key})
      case Session => this.(session := session - {key})
    }
  }

  /** A browser with nothing stored. */
  const Fresh := BrowserState(map[], map[], map[], {})

  function Lookup(m: map<string, string>, key: string): (v: Option<string>)
  {
    if key in m then Some(m[key]) else None
  }

  /** `after` is `before` with exactly the keys in `gone` deleted. */
  ghost predicate RemovedExactly(before: map<string, string>, after: map<string, string>, gone: set<string>)
  {
    && after.Keys == before.Keys - gone
    && forall k :: k in after ==> after[k] == before[k]
  }

  /** The one browser instance that every page reads and writes. */
  class Browser {
    var cookies: map<string, string>
    var local: map<string, string>
    var session: map<string, string>
    var rootClasses: set<string>

    function State(): BrowserState
      reads this
    {
      BrowserState(cookies, local, session, rootClasses)
    }

    constructor (init: BrowserState)
      ensures State() == init
    {
      cookies, local, session, rootClasses := init.cookies, init.local, init.session, init.rootClasses;
    }

    method SetItem(t: Tier, key: string, value: string)
      modifies this
      ensures State() == old(State()).SetItem(t, key, value)
    {
      match t
      case Cookies => cookies := cookies[key := value];
      case Local => local := local[key := value];
      case Session => session := session[key := value];
    }

    method RemoveItem(t: Tier, key: string)
      modifies this
      ensures State() == old(State()).RemoveItem(t, key)
    {
      match t
      case Cookies => cookies := cookies - {key};
      case Local => local := local - {key};
      case Session => session := session - {key};
    }

    /** `document.documentElement.classList.add(c)` */
    method AddClass(c: string)
      modifies this
      ensures State() == old(State()).(rootClasses := old(rootClasses) + {c})
    {
      rootClasses := rootClasses + {c};
    }

    /** `document.documentElement.classList.remove(c)` */
    method RemoveClass(c: string)
      modifies this
      ensures State() == old(State()).(rootClasses := old(rootClasses) - {c})
    {
      rootClasses := rootClasses - {c};
    }
  }
}
