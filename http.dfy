/**
 * The JSON shapes exchanged between the pages and the mock backend, and the
 * JavaScript conventions the pages rely on when reading them.
 */
module Http {
  import opened Wrappers

  /** The application's page paths, shared by the pages and the route guard. */
  const HomePath := "/"
  const LoginPath := "/login"
  const RegisterPath := "/register"
  const DashboardPath := "/dashboard"

  /** A JSON request body: an absent key reads as `undefined`. */
  type Fields = map<string, string>

  /** The `user` object of a response. */
  datatype User = User(id: string, email: string, fullName: string)

  /** A JSON response body; each key may be absent. */
  datatype Body = Body(token: Option<string>, user: Option<User>, message: Option<string>)

  datatype Response = Response(status: int, body: Body)

  /**
   * What `fetch` followed by `response.json()` gives a page: the request
   * failed outright, or a status arrived with a body that did (`Some`) or did
   * not (`None`) parse as JSON.
   */
  datatype Reply = NetworkError | Received(status: int, body: Option<Body>)

  /** How a page receives a response produced by a handler. */
  function Deliver(r: Response): (reply: Reply)
    ensures reply.Received? && reply.status == r.status && reply.body == Some(r.body)
  {
    Received(r.status, Some(r.body))
  }

  /** `response.ok`: the status is in the range 200-299. */
  predicate IsOk(status: int)
  {
    200 <= status <= 299
  }

  /** A destructured field `const { k } = body`. */
  function Field(req: Fields, key: string): Option<string>
  {
    if key in req then Some(req[key]) else None
  }

  /** JavaScript truthiness of a value that is a string or `undefined`. */
  predicate Truthy(v: Option<string>)
  {
    v.Some? && v.value != ""
  }

  /**
   * `s.length`: the number of UTF-16 code units, two for a character
   * outside the Basic Multilingual Plane and one for every other.
   */
  function JsLength(s: string): (n: nat)
    ensures |s| <= n <= 2 * |s|
    ensures (forall i :: 0 <= i < |s| ==> s[i] as int <= 0xFFFF) ==> n == |s|
  {
    if s == [] then 0 else (if s[0] as int > 0xFFFF then 2 else 1) + JsLength(s[1..])
  }

  /** `v || fallback` */
  function OrElse(v: Option<string>, fallback: string): (r: string)
    ensures fallback != "" ==> r != ""
    ensures r == fallback || v == Some(r)
  {
    if Truthy(v) then v.value else fallback
  }

  /** `String(v)` as `setItem` applies it: an absent value is stored as "undefined". */
  function Text(v: Option<string>): (r: string)
    ensures v.Some? ==> v == Some(r)
    ensures v.None? ==> r == "undefined"
  {
    if v.Some? then v.value else "undefined"
  }

  /**
   * `JSON.stringify(user)` as `setItem` stores it. String escaping is not
   * modelled.
   */
  function UserJson(u: Option<User>): (r: string)
    ensures u.None? ==> r == "undefined"
    // a present user is an object literal, never the text an absent one leaves
    ensures u.Some? ==> |r| >= 2 && r[0] == '{' && r[|r| - 1] == '}' && r != "undefined"
    ensures u.Some? ==> |r| >= 7 && u.value.id <= r[7..]
  {
    match u
    case None => "undefined"
    case Some(User(id, email, fullName)) =>
      "{\"id\":\"" + id + "\",\"email\":\"" + email + "\",\"fullName\":\"" + fullName + "\"}"
  }
}
