/** `/api/auth/forgot-password`: OPTIONS answers a CORS preflight, POST asks
    the provider to e-mail a reset link, PUT verifies a recovery token and
    sets the new password. */
module ForgotPasswordRoute {
  import opened Js
  import opened Http
  import opened AuthProvider
  import Middleware

  const ResetNotice := "If an account exists with this email, you will receive a password reset link."
  const EmailRequired := "Email is required"
  const PostFailure := "Failed to process your request. Please try again later."
  const FieldsRequired := "Token and password are required"
  const TokenRejected := "Invalid or expired token. Please request a new password reset."
  const PutFailure := "Failed to update password. Please try again."
  const PutSuccess := "Password updated successfully!"
  const DefaultSiteUrl := "http://localhost:3000"

  /** `OPTIONS()`: 204 with the CORS headers. */
  function Options(): (r: Response)
    ensures r.status == 204 && r.body == NoBody && HasCors(r)
  {
    Response(204, NoBody, CorsHeaders)
  }

  /** The reset link's target: `NEXT_PUBLIC_SITE_URL`, or the local default
      when it is unset or empty, followed by "/update-password". */
  function RedirectTo(siteUrl: Option<string>): string {
    OrElse(siteUrl, DefaultSiteUrl) + ResetPage
  }

  const ResetPage := "/update-password"

  /** The reset link always ends in the reset page, on the configured site
      or on the local default, and the request gate lets that page through
      without a session, so the e-mailed link can be opened signed out. */
  lemma ResetLinkReachable(siteUrl: Option<string>, hasSession: bool)
    ensures var url := RedirectTo(siteUrl);
      |url| >= |ResetPage| && url[|url| - |ResetPage|..] == ResetPage
    ensures Present(siteUrl) ==> Js.StartsWith(RedirectTo(siteUrl), siteUrl.value)
    ensures !Present(siteUrl) ==> RedirectTo(siteUrl) == "http://localhost:3000/update-password"
    ensures Middleware.Gate(ResetPage, hasSession) == Middleware.Pass
  {
    var site := OrElse(siteUrl, DefaultSiteUrl);
    var url := site + ResetPage;
    assert url[|url| - |ResetPage|..] == ResetPage;
    assert url[..|site|] == site;
    Middleware.ResetPagePasses(hasSession);
  }

  /** `POST(request)`, with the environment variable and the provider's
      answer as inputs. */
  function Post(requestMethod: string, body: RequestBody, siteUrl: Option<string>, reset: ResetOutcome): Handled {
    if requestMethod == "OPTIONS" then Handled(Respond(EmptyNoContent()), [])
    else if body.Malformed? then Handled(Escapes, [])
    else
      var email := Field(body, "email");
      if !Truthy(email) then Handled(Respond(Json(400, ErrorBody(EmailRequired))), [])
      else
        var calls := [ResetPasswordForEmail(email, RedirectTo(siteUrl))];
        match reset
        case ResetThrew(_) => Handled(Respond(Json(500, ErrorBody(PostFailure))), calls)
        case ResetReturned(Some(_)) => Handled(Respond(AddCors(Json(200, MessageBody(ResetNotice)))), calls)
        case ResetReturned(None) => Handled(Respond(AddCors(Json(200, MessageBody(ResetNotice)))), calls)
  }

  /** `PUT(request)`, with the provider's answers as inputs. */
  function Put(requestMethod: string, body: RequestBody, verify: VerifyOutcome, update: UpdateOutcome): Handled {
    if requestMethod == "OPTIONS" then Handled(Respond(EmptyNoContent()), [])
    else if body.Malformed? then Handled(Escapes, [])
    else
      var token := Field(body, "token");
      var password := Field(body, "password");
      if !Truthy(token) || !Truthy(password) then Handled(Respond(Json(400, ErrorBody(FieldsRequired))), [])
      else
        var verifyCall := [VerifyOtp(token)];
        match verify
        case VerifyThrew(_) => Handled(Respond(Json(500, ErrorBody(PutFailure))), verifyCall)
        // destructuring `data: { user }` from a null `data` throws inside the try
        case VerifyReturned(_, None) => Handled(Respond(Json(500, ErrorBody(PutFailure))), verifyCall)
        case VerifyReturned(error, Some(data)) =>
          if error.Some? || !data.hasUser then Handled(Respond(Json(400, ErrorBody(TokenRejected))), verifyCall)
          else
            var calls := verifyCall + [UpdateUser(password)];
            match update
            case UpdateThrew(_) => Handled(Respond(Json(500, ErrorBody(PutFailure))), calls)
            case UpdateReturned(Some(_)) => Handled(Respond(Json(500, ErrorBody(PutFailure))), calls)
            case UpdateReturned(None) => Handled(Respond(AddCors(Json(200, MessageBody(PutSuccess)))), calls)
  }

  /** A POST whose `email` is missing or falsy is answered 400 before the
      provider is asked for anything. */
  lemma PostRequiresEmail(requestMethod: string, body: RequestBody, siteUrl: Option<string>, reset: ResetOutcome)
    requires requestMethod != "OPTIONS" && body.Fields? && !Truthy(Field(body, "email"))
    ensures Post(requestMethod, body, siteUrl, reset) == Handled(Respond(Json(400, ErrorBody(EmailRequired))), [])
  {
  }

  /** No account enumeration: whether the provider reports an error or not,
      the POST's reply is the same. */
  lemma PostHidesAccountExistence(requestMethod: string, body: RequestBody, siteUrl: Option<string>, error: ErrorInfo)
    ensures Post(requestMethod, body, siteUrl, ResetReturned(Some(error))) == Post(requestMethod, body, siteUrl, ResetReturned(None))
  {
  }

  /** With an e-mail present, exactly one reset is requested, for that e-mail
      and the site's "/update-password" page; the answer is 200 with the
      neutral notice unless the provider throws, which gives a generic 500. */
  lemma PostWithEmail(requestMethod: string, body: RequestBody, siteUrl: Option<string>, reset: ResetOutcome)
    requires requestMethod != "OPTIONS" && body.Fields? && Truthy(Field(body, "email"))
    ensures Post(requestMethod, body, siteUrl, reset).calls == [ResetPasswordForEmail(Field(body, "email"), RedirectTo(siteUrl))]
    ensures reset.ResetThrew? ==> Post(requestMethod, body, siteUrl, reset).reply == Respond(Json(500, ErrorBody(PostFailure)))
    ensures reset.ResetReturned? ==> Post(requestMethod, body, siteUrl, reset).reply == Respond(AddCors(Json(200, MessageBody(ResetNotice))))
  {
  }

  /** A PUT without a truthy token and password is answered 400 and calls
      nothing. */
  lemma PutRequiresFields(requestMethod: string, body: RequestBody, verify: VerifyOutcome, update: UpdateOutcome)
    requires requestMethod != "OPTIONS" && body.Fields?
    requires !Truthy(Field(body, "token")) || !Truthy(Field(body, "password"))
    ensures Put(requestMethod, body, verify, update) == Handled(Respond(Json(400, ErrorBody(FieldsRequired))), [])
  {
  }

  /** A token the provider rejects (an error, or no user) is answered 400
      and the password is not touched. */
  lemma PutRejectsBadToken(requestMethod: string, body: RequestBody, error: Option<ErrorInfo>, data: VerifyData, update: UpdateOutcome)
    requires requestMethod != "OPTIONS" && body.Fields?
    requires Truthy(Field(body, "token")) && Truthy(Field(body, "password"))
    requires error.Some? || !data.hasUser
    ensures Put(requestMethod, body, VerifyReturned(error, Some(data)), update)
      == Handled(Respond(Json(400, ErrorBody(TokenRejected))), [VerifyOtp(Field(body, "token"))])
  {
  }

  /** The password is updated only after the token was verified without an
      error and with a user, and only once, after the verification. */
  lemma PutUpdatesOnlyVerifiedUsers(requestMethod: string, body: RequestBody, verify: VerifyOutcome, update: UpdateOutcome)
    ensures var h := Put(requestMethod, body, verify, update);
      (exists i :: 0 <= i < |h.calls| && h.calls[i].UpdateUser?) ==>
        && verify.VerifyReturned? && verify.error.None? && verify.data.Some? && verify.data.value.hasUser
        && body.Fields?
        && h.calls == [VerifyOtp(Field(body, "token")), UpdateUser(Field(body, "password"))]
  {
  }

  /** Once the token is accepted, an update error is a 500 and success is a
      200 with the confirmation. */
  lemma PutOutcomeAfterVerification(requestMethod: string, body: RequestBody, update: UpdateOutcome)
    requires requestMethod != "OPTIONS" && body.Fields?
    requires Truthy(Field(body, "token")) && Truthy(Field(body, "password"))
    ensures var r := Put(requestMethod, body, VerifyReturned(None, Some(VerifyData(true))), update).reply;
      && (update == UpdateReturned(None) ==> r == Respond(AddCors(Json(200, MessageBody(PutSuccess)))))
      && (update != UpdateReturned(None) ==> r == Respond(Json(500, ErrorBody(PutFailure))))
  {
  }

  /** The route's CORS headers: every 200 carries them, no 204 sent from
      inside POST or PUT does, and no 400 or 500 does; the OPTIONS export is
      the only 204 that carries them. */
  lemma CorsOnlyOnSuccess(requestMethod: string, body: RequestBody, siteUrl: Option<string>,
                          reset: ResetOutcome, verify: VerifyOutcome, update: UpdateOutcome)
    ensures forall h :: h in {Post(requestMethod, body, siteUrl, reset), Put(requestMethod, body, verify, update)} && h.reply.Respond? ==>
      && h.reply.response.status in {200, 204, 400, 500}
      && (h.reply.response.status == 200 <==> HasCors(h.reply.response))
      && (h.reply.response.status != 200 ==> NoCors(h.reply.response))
    ensures HasCors(Options())
  {
    CorsHeadersNonEmpty();
  }

  /** The CORS header map is not empty, so no response can both carry all
      of its headers and none of them. */
  lemma CorsHeadersNonEmpty()
    ensures "access-control-allow-origin" in CorsHeaders
  {
  }
}
