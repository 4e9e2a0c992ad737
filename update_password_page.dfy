/** The "Update your password" page: it is shown only for a recovery link,
    checks the form before sending anything, sends the token and the new
    password to the forgot-password PUT route and reports the outcome. */
module UpdatePasswordPage {
  import opened Js
  import opened Http
  import opened AuthProvider
  import ForgotPasswordRoute

  const InvalidLink := "Invalid reset link. Please request a new password reset email."
  const Mismatch := "Passwords do not match"
  const TooShort := "Password must be at least 6 characters long"
  const InvalidResponse := "Invalid response from server"
  const RequestFailed := "Failed to update password"
  const Unexpected := "An error occurred. Please try again."
  const Success := "Your password has been updated successfully!"
  const MinimumLength := 6

  /** The URL carries a non-empty `token` and `type=recovery`. Both the
      render guard and the mount effect test exactly this. */
  predicate HasRecoveryLink(token: Option<string>, recoveryType: Option<string>) {
    Present(token) && recoveryType == Some("recovery")
  }

  /** The checks `handleSubmit` makes before any request, in their order:
      the first that fails names the error shown. */
  function PreflightError(token: Option<string>, password: string, confirmPassword: string): (r: Option<string>)
    ensures r == Some(InvalidLink) <==> !Present(token)
    ensures r == Some(Mismatch) <==> Present(token) && password != confirmPassword
    ensures r == Some(TooShort) <==> Present(token) && password == confirmPassword && Utf16Length(password) < MinimumLength
    ensures r.None? <==> Present(token) && password == confirmPassword && Utf16Length(password) >= MinimumLength
  {
    if !Present(token) then Some(InvalidLink)
    else if password != confirmPassword then Some(Mismatch)
    else if Utf16Length(password) < MinimumLength then Some(TooShort)
    else None
  }

  /** On a rendered form the invalid-link error cannot appear: the form is
      only shown when the token is present. */
  lemma RenderedFormHasToken(token: Option<string>, recoveryType: Option<string>, password: string, confirmPassword: string)
    requires HasRecoveryLink(token, recoveryType)
    ensures PreflightError(token, password, confirmPassword) != Some(InvalidLink)
  {
  }

  /** The JSON body `JSON.stringify({ token, password })` as the route reads it. */
  function PutRequest(token: string, password: string): (b: RequestBody)
    ensures b.Fields? && Field(b, "token") == Str(token) && Field(b, "password") == Str(password)
  {
    Fields(map["token" := Str(token), "password" := Str(password)])
  }

  /** What `response.json()` yields: a body that does not parse, or an object
      with an optional string `error`. */
  datatype JsonResult = NotJson | JsonObject(error: Option<string>)

  /** How the `fetch` settles: it rejects (with an error whose message may be
      empty), or a response arrives with its `ok` flag and body. */
  datatype FetchOutcome = NetworkError(message: Option<string>) | Received(ok: bool, json: JsonResult)

  /** How the submission ends: the success message and a redirect, or an
      error message. */
  datatype Settled = Succeeded | Failed(error: string)

  /** The try/catch after the request has been sent. */
  function Completion(outcome: FetchOutcome): (s: Settled)
    ensures s.Succeeded? <==> outcome.Received? && outcome.ok && outcome.json.JsonObject?
    ensures s.Failed? ==> s.error != ""
    ensures outcome.Received? && outcome.json.NotJson? ==> s == Failed(InvalidResponse)
    ensures outcome.Received? && !outcome.ok && outcome.json.JsonObject? ==>
      s == Failed(OrElse(outcome.json.error, RequestFailed))
    ensures outcome.NetworkError? ==> s == Failed(OrElse(outcome.message, Unexpected))
  {
    match outcome
    case NetworkError(m) => Failed(OrElse(m, Unexpected))
    case Received(_, NotJson) => Failed(InvalidResponse)
    case Received(ok, JsonObject(e)) =>
      if !ok then Failed(OrElse(e, RequestFailed)) else Succeeded
  }

  /** What the browser makes of a route's reply: `ok` is a 2xx status, an
      empty body does not parse, and an exception that escapes the handler
      becomes the framework's error page, which is not JSON. */
  function Delivered(reply: Reply): FetchOutcome {
    match reply
    case Escapes => Received(false, NotJson)
    case Respond(r) =>
      var json := match r.body
        case NoBody => NotJson
        case ErrorBody(e) => JsonObject(Some(e))
        case MessageBody(_) => JsonObject(None);
      Received(200 <= r.status < 300, json)
  }

  /** What the page shows for any reply of a route: an escaped exception is
      "Invalid response from server"; a 2xx reply succeeds exactly when it has
      a JSON body; any other reply shows the route's own non-empty `error`,
      or the default when it has none. */
  lemma PageShowsReply(reply: Reply)
    ensures reply.Escapes? ==> Completion(Delivered(reply)) == Failed(InvalidResponse)
    ensures reply.Respond? && 200 <= reply.response.status < 300 ==>
      (Completion(Delivered(reply)).Succeeded? <==> !reply.response.body.NoBody?)
    ensures reply.Respond? && !(200 <= reply.response.status < 300) && reply.response.body.ErrorBody?
              && reply.response.body.error != "" ==>
      Completion(Delivered(reply)) == Failed(reply.response.body.error)
    ensures reply.Respond? && !(200 <= reply.response.status < 300) && reply.response.body.MessageBody? ==>
      Completion(Delivered(reply)) == Failed(RequestFailed)
  {
  }

  /** A request that passed the pre-flight checks always gets past the
      route's own check for a token and a password. */
  lemma PreflightCoversRouteCheck(token: Option<string>, password: string, verify: VerifyOutcome, update: UpdateOutcome)
    requires PreflightError(token, password, password).None?
    ensures ForgotPasswordRoute.Put("PUT", PutRequest(token.value, password), verify, update).reply
      != Respond(Json(400, ErrorBody(ForgotPasswordRoute.FieldsRequired)))
  {
  }

  /** End to end: once the form is accepted, the page reports success exactly
      when the route verified the token for a user and updated the password;
      otherwise it shows the route's own error message. */
  lemma PageReportsRouteOutcome(token: Option<string>, password: string, verify: VerifyOutcome, update: UpdateOutcome)
    requires PreflightError(token, password, password).None?
    ensures var s := Completion(Delivered(ForgotPasswordRoute.Put("PUT", PutRequest(token.value, password), verify, update).reply));
      && (s.Succeeded? <==>
            verify.VerifyReturned? && verify.error.None? && verify.data.Some? && verify.data.value.hasUser
            && update == UpdateReturned(None))
      && (s.Failed? ==> s.error in {ForgotPasswordRoute.TokenRejected, ForgotPasswordRoute.PutFailure})
  {
  }

  /** The page component's state. */
  class Page {
    var password: string
    var confirmPassword: string
    var message: string
    var error: string
    var isLoading: bool
    const token: Option<string>
    const recoveryType: Option<string>

    /** Mounting with the URL's `token` and `type` parameters. */
    constructor (token: Option<string>, recoveryType: Option<string>)
      ensures this.token == token && this.recoveryType == recoveryType
      ensures password == "" && confirmPassword == "" && message == "" && error == "" && !isLoading
    {
      this.token := token;
      this.recoveryType := recoveryType;
      password := "";
      confirmPassword := "";
      message := "";
      error := "";
      isLoading := false;
    }

    /** The mount effect sends the visitor to "/login" when the link is not a
        recovery link; the render guard then shows nothing. */
    predicate RedirectsOnMount()
      reads this
    {
      !HasRecoveryLink(token, recoveryType)
    }

    /** The new-password field's `onChange`. */
    method SetPassword(value: string)
      modifies this
      ensures password == value
      ensures confirmPassword == old(confirmPassword) && message == old(message)
      ensures error == old(error) && isLoading == old(isLoading)
    {
      password := value;
    }

    /** The confirmation field's `onChange`. */
    method SetConfirmPassword(value: string)
      modifies this
      ensures confirmPassword == value
      ensures password == old(password) && message == old(message)
      ensures error == old(error) && isLoading == old(isLoading)
    {
      confirmPassword := value;
    }

    /** `handleSubmit` up to the request: a failed check shows its error and
        changes nothing else; otherwise the page is loading, both messages
        are cleared and the request body is returned. */
    method BeginSubmit() returns (request: Option<RequestBody>)
      modifies this
      ensures password == old(password) && confirmPassword == old(confirmPassword)
      ensures PreflightError(token, password, confirmPassword).Some? ==>
        && request.None?
        && error == PreflightError(token, password, confirmPassword).value
        && message == old(message) && isLoading == old(isLoading)
      ensures PreflightError(token, password, confirmPassword).None? ==>
        && request == Some(PutRequest(token.value, password))
        && isLoading && error == "" && message == ""
    {
      var failure := PreflightError(token, password, confirmPassword);
      if failure.Some? {
        error := failure.value;
        return None;
      }
      isLoading := true;
      error := "";
      message := "";
      request := Some(PutRequest(token.value, password));
    }

    /** `handleSubmit` after the request settles: the success message (and a
        redirect to "/login" two seconds later) or the error, and loading
        ends either way. */
    method CompleteSubmit(outcome: FetchOutcome) returns (redirectToLogin: bool)
      modifies this
      ensures !isLoading
      ensures password == old(password) && confirmPassword == old(confirmPassword)
      ensures Completion(outcome).Succeeded? ==> message == Success && error == old(error) && redirectToLogin
      ensures Completion(outcome).Failed? ==> error == Completion(outcome).error && message == old(message) && !redirectToLogin
    {
      var settled := Completion(outcome);
      if settled.Succeeded? {
        message := Success;
        redirectToLogin := true;
      } else {
        error := settled.error;
        redirectToLogin := false;
      }
      isLoading := false;
    }

    /** A whole submission whose request settles with `outcome`: after an
        accepted form exactly one of the two messages is shown. */
    method Submit(outcome: FetchOutcome) returns (redirectToLogin: bool)
      modifies this
      ensures !isLoading || PreflightError(token, old(password), old(confirmPassword)).Some?
      ensures PreflightError(token, old(password), old(confirmPassword)).Some? ==>
        error == PreflightError(token, old(password), old(confirmPassword)).value && !redirectToLogin
      ensures PreflightError(token, old(password), old(confirmPassword)).None? ==>
        && (message != "" <==> error == "")
        && (redirectToLogin <==> Completion(outcome).Succeeded?)
        && (Completion(outcome).Succeeded? ==> message == Success && error == "")
        && (Completion(outcome).Failed? ==> error == Completion(outcome).error && message == "")
    {
      var request := BeginSubmit();
      if request.None? {
        return false;
      }
      redirectToLogin := CompleteSubmit(outcome);
    }
  }

  /** A typical visit: a matching six-letter password is sent, the route
      answers 200 and the page shows the success message. */
  method SubmitExample()
  {
    var page := new Page(Some("abc"), Some("recovery"));
    assert !page.RedirectsOnMount();
    page.SetPassword("secret");
    page.SetConfirmPassword("secret");
    var redirect := page.Submit(Received(true, JsonObject(None)));
    assert redirect && page.message == Success && page.error == "";
  }
}
