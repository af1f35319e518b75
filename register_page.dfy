/**
 * The registration form's submit handler: three ordered guards on the four
 * fields, one request to `/api/register` and the success or error message
 * that follows.
 */
module RegisterPage {
  import opened Wrappers
  import opened Http

  const AllFieldsRequired := "All fields are required."
  const PasswordTooShort := "Password must be at least 6 characters long."
  const PasswordsDiffer := "Passwords do not match."
  const RegistrationSucceeded := "Registration successful! You can now log in."
  const RegistrationFailed := "Registration failed. Please try again."
  const RegistrationUnexpected := "An unexpected error occurred during registration. Please try again."

  const MinPasswordLength := 6
  /** After a success the page goes to `/login` this many milliseconds later. */
  const RedirectDelay := 2000

  /** The three guards, in their order; `None` when the form may be sent. */
  function Validate(fullName: string, email: string, password: string, confirm: string): (e: Option<string>)
    ensures e == Some(AllFieldsRequired) <==> fullName == "" || email == "" || password == "" || confirm == ""
    ensures e == Some(PasswordTooShort) <==>
      fullName != "" && email != "" && password != "" && confirm != "" && JsLength(password) < MinPasswordLength
    ensures e == Some(PasswordsDiffer) <==>
      fullName != "" && email != "" && password != "" && confirm != "" && JsLength(password) >= MinPasswordLength && password != confirm
    ensures e.None? <==>
      fullName != "" && email != "" && JsLength(password) >= MinPasswordLength && password == confirm
  {
    if fullName == "" || email == "" || password == "" || confirm == "" then Some(AllFieldsRequired)
    else if JsLength(password) < MinPasswordLength then Some(PasswordTooShort)
    else if password != confirm then Some(PasswordsDiffer)
    else None
  }

  /** The request body: the name, the email and the password, never the confirmation. */
  function RegistrationBody(fullName: string, email: string, password: string): (req: Fields)
    ensures req.Keys == {"fullName", "email", "password"}
    ensures "confirmPassword" !in req
    ensures Field(req, "fullName") == Some(fullName) && Field(req, "email") == Some(email)
    ensures Field(req, "password") == Some(password)
  {
    map["fullName" := fullName, "email" := email, "password" := password]
  }

  /** What one submit does to the page. */
  datatype Outcome = Outcome(sent: Option<Fields>, error: string, success: string, redirectScheduled: bool)

  /** `handleSubmit` as a function of the four fields and the server's reply. */
  function Submit(fullName: string, email: string, password: string, confirm: string, reply: Reply): (o: Outcome)
    ensures o.sent.Some? <==> Validate(fullName, email, password, confirm).None?
    ensures o.sent.None? ==> o.error == Validate(fullName, email, password, confirm).value && o.success == "" && !o.redirectScheduled
    ensures o.sent.Some? ==> o.sent.value == RegistrationBody(fullName, email, password)
    // exactly one of error and success is set
    ensures (o.error == "") != (o.success == "")
    ensures o.success != "" <==> o.sent.Some? && reply.Received? && reply.body.Some? && IsOk(reply.status)
    ensures o.success != "" ==> o.success == RegistrationSucceeded && o.redirectScheduled
    ensures o.redirectScheduled ==> o.success != ""
    ensures o.sent.Some? && reply.Received? && reply.body.Some? && !IsOk(reply.status) ==>
      o.error == OrElse(reply.body.value.message, RegistrationFailed)
    ensures o.sent.Some? && (reply.NetworkError? || reply.body.None?) ==> o.error == RegistrationUnexpected
  {
    var invalid := Validate(fullName, email, password, confirm);
    if invalid.Some? then
      Outcome(None, invalid.value, "", false)
    else
      var req := RegistrationBody(fullName, email, password);
      match reply
      case NetworkError => Outcome(Some(req), RegistrationUnexpected, "", false)
      case Received(status, body) =>
        if body.None? then Outcome(Some(req), RegistrationUnexpected, "", false)
        else if IsOk(status) then Outcome(Some(req), "", RegistrationSucceeded, true)
        else Outcome(Some(req), OrElse(body.value.message, RegistrationFailed), "", false)
  }

  /** A password of exactly six UTF-16 units passes the length guard; five do not. */
  lemma LengthBoundary(fullName: string, email: string, password: string)
    requires fullName != "" && email != "" && password != ""
    ensures JsLength(password) == 6 ==> Validate(fullName, email, password, password).None?
    ensures JsLength(password) == 5 ==> Validate(fullName, email, password, password) == Some(PasswordTooShort)
  {
  }

  /**
   * The length is counted in UTF-16 units: three characters outside the
   * Basic Multilingual Plane make a password of length six, which passes.
   */
  lemma AstralPasswordLength(password: string)
    requires password == "\U{1F600}\U{1F600}\U{1F600}"
    ensures |password| == 3 && JsLength(password) == 6
    ensures Validate("Ann", "a@x.com", password, password).None?
  {
    var two, one := password[1..], password[1..][1..];
    assert two == "\U{1F600}\U{1F600}" && one == "\U{1F600}" && one[1..] == "";
    assert JsLength(one) == 2;
    assert JsLength(two) == 2 + JsLength(one);
  }

  /**
   * The guards are checked in a fixed order: a mismatch is reported only when
   * no field is empty and the password is long enough.
   */
  lemma GuardOrder(fullName: string, email: string, password: string, confirm: string)
    ensures password != confirm && confirm == "" ==> Validate(fullName, email, password, confirm) == Some(AllFieldsRequired)
    ensures password != confirm && confirm != "" && password != "" && fullName != "" && email != "" && JsLength(password) < 6 ==>
      Validate(fullName, email, password, confirm) == Some(PasswordTooShort)
  {
  }

  /** The registration form's state and its submit handler. */
  class RegisterForm {
    var fullName: string
    var email: string
    var password: string
    var confirmPassword: string
    var error: string
    var success: string
    var loading: bool

    constructor ()
      ensures fullName == "" && email == "" && password == "" && confirmPassword == ""
      ensures error == "" && success == "" && !loading
    {
      fullName, email, password, confirmPassword := "", "", "", "";
      error, success, loading := "", "", false;
    }

    /**
     * `handleSubmit`. The server's reply is an input; `sent` is the body
     * posted to `/api/register` and `redirectScheduled` the delayed move to
     * `/login`.
     */
    method HandleSubmit(reply: Reply) returns (sent: Option<Fields>, redirectScheduled: bool)
      modifies this`error, this`success, this`loading
      ensures var o := Submit(fullName, email, password, confirmPassword, reply);
        && sent == o.sent && redirectScheduled == o.redirectScheduled
        && error == o.error && success == o.success
      ensures !loading
    {
      error := "";
      success := "";
      loading := true;
      redirectScheduled := false;
      sent := None;
      if fullName == "" || email == "" || password == "" || confirmPassword == "" {
        error := AllFieldsRequired;
        loading := false;
        return;
      }
      if JsLength(password) < MinPasswordLength {
        error := PasswordTooShort;
        loading := false;
        return;
      }
      if password != confirmPassword {
        error := PasswordsDiffer;
        loading := false;
        return;
      }
      sent := Some(RegistrationBody(fullName, email, password));
      match reply {
        case NetworkError =>
          error := RegistrationUnexpected;
        case Received(status, body) =>
          if body.None? {
            error := RegistrationUnexpected;
          } else if IsOk(status) {
            success := RegistrationSucceeded;
            redirectScheduled := true;
          } else {
            error := OrElse(body.value.message, RegistrationFailed);
          }
      }
      loading := false;
    }
  }
}
