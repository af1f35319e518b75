/**
 * The mock backend: two stateless POST handlers, `/api/login` and
 * `/api/register`. Each is a single decision on the request's fields. Any
 * other path has no handler and falls through to the network.
 */
module MockHandlers {
  import opened Wrappers
  import opened Http

  const LoginApi := "/api/login"
  const RegisterApi := "/api/register"

  const DemoEmail := "user@example.com"
  const DemoPassword := "password123"
  const DemoToken := "mock-auth-token-123"
  const DemoUser := User("user-1", DemoEmail, "John Doe")

  const InvalidCredentials := "Invalid credentials"
  const MissingFields := "Missing required fields"
  const RegistrationAccepted := "Registration successful!"

  /** The body of the one successful login response. */
  const SessionBody := Body(Some(DemoToken), Some(DemoUser), None)
  /** The body of every rejected login. */
  const RejectedBody := Body(None, None, Some(InvalidCredentials))

  /** POST /api/login: only the one hard-coded email/password pair is accepted. */
  function Login(req: Fields): (r: Response)
    ensures r.status == 200 || r.status == 401
    ensures r.status == 200 <==> Field(req, "email") == Some(DemoEmail) && Field(req, "password") == Some(DemoPassword)
    ensures r.status == 200 ==> r.body.token == Some(DemoToken) && r.body.user == Some(DemoUser)
    ensures r.status == 401 ==> r.body.message == Some(InvalidCredentials) && r.body.token == None && r.body.user == None
  {
    if Field(req, "email") == Some(DemoEmail) && Field(req, "password") == Some(DemoPassword) then
      Response(200, SessionBody)
    else
      Response(401, RejectedBody)
  }

  /**
   * POST /api/register: accepted when email, password and fullName are all
   * truthy. `stamp` is the decimal text of the clock reading that makes the
   * new id; it is an opaque input here.
   */
  function Register(req: Fields, stamp: string): (r: Response)
    ensures r.status == 201 || r.status == 400
    ensures r.status == 201 <==> Truthy(Field(req, "email")) && Truthy(Field(req, "password")) && Truthy(Field(req, "fullName"))
    ensures r.status == 201 ==>
      && r.body.message == Some(RegistrationAccepted)
      && r.body.token == None
      && r.body.user == Some(User("user-" + stamp, req["email"], req["fullName"]))
    ensures r.status == 400 ==> r.body == Body(None, None, Some(MissingFields))
  {
    var email, password, fullName := Field(req, "email"), Field(req, "password"), Field(req, "fullName");
    if Truthy(email) && Truthy(password) && Truthy(fullName) then
      Response(201, Body(None, Some(User("user-" + stamp, email.value, fullName.value)), Some(RegistrationAccepted)))
    else
      Response(400, Body(None, None, Some(MissingFields)))
  }

  /**
   * The handler list: a request to a path with no handler gets `None` and is
   * passed through unhandled.
   */
  function Handle(path: string, req: Fields, stamp: string): (r: Option<Response>)
    ensures r.Some? <==> path == LoginApi || path == RegisterApi
    ensures path == LoginApi ==> r == Some(Login(req))
    ensures path == RegisterApi ==> r == Some(Register(req, stamp))
  {
    if path == LoginApi then Some(Login(req))
    else if path == RegisterApi then Some(Register(req, stamp))
    else None
  }

  /** Every successful login gets the very same response: one token, one user. */
  lemma SuccessfulLoginsIdentical(a: Fields, b: Fields)
    requires Login(a).status == 200 && Login(b).status == 200
    ensures Login(a) == Login(b) == Response(200, SessionBody)
  {
  }

  /**
   * A wrong email and a wrong password are indistinguishable: every rejected
   * login gets the same response.
   */
  lemma RejectedLoginsIdentical(a: Fields, b: Fields)
    requires Login(a).status != 200 && Login(b).status != 200
    ensures Login(a) == Login(b) == Response(401, RejectedBody)
  {
  }

  /**
   * The register response does not depend on the password's value, so it
   * cannot reveal it: replacing one non-empty password by another changes
   * nothing in the response.
   */
  lemma RegisterResponseIgnoresPassword(req: Fields, other: string, stamp: string)
    requires Truthy(Field(req, "password")) && other != ""
    ensures Register(req["password" := other], stamp) == Register(req, stamp)
  {
    var req' := req["password" := other];
    assert Field(req', "email") == Field(req, "email");
    assert Field(req', "fullName") == Field(req, "fullName");
  }

  /**
   * The handlers keep no account store: a registration is accepted, the same
   * registration is accepted again, and logging in with the registered
   * credentials is still rejected unless they are the hard-coded pair.
   */
  lemma RegistrationGrantsNothing(email: string, password: string, fullName: string, s1: string, s2: string)
    requires email != "" && password != "" && fullName != ""
    requires email != DemoEmail || password != DemoPassword
    ensures var reg := map["email" := email, "password" := password, "fullName" := fullName];
      && Register(reg, s1).status == 201
      && Register(reg, s2).status == 201
      && Login(map["email" := email, "password" := password]).status == 401
  {
    var reg := map["email" := email, "password" := password, "fullName" := fullName];
    assert Field(reg, "email") == Some(email);
    assert Field(reg, "password") == Some(password);
    assert Field(reg, "fullName") == Some(fullName);
    var login := map["email" := email, "password" := password];
    assert Field(login, "email") == Some(email);
    assert Field(login, "password") == Some(password);
  }
}
