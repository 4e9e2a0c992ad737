/** `/api/auth/update-password`: exchanges a recovery token for a session and
    then sets the new password. Its replies carry no CORS headers. */
module UpdatePasswordRoute {
  import opened Js
  import opened Http
  import opened AuthProvider

  const FieldsRequired := "Token and password are required"
  const TokenRejected := "Invalid or expired token"
  const DefaultFailure := "Failed to update password"
  const Updated := "Password updated successfully"

  /** The 500 of the catch block: the caught error's message, or the default
      when it has none or it is empty. */
  function Failure(caught: ErrorInfo): (r: Response)
    ensures r.status == 500 && NoCors(r)
    ensures Present(caught.message) ==> r.body == ErrorBody(caught.message.value)
    ensures !Present(caught.message) ==> r.body == ErrorBody(DefaultFailure)
  {
    Json(500, ErrorBody(OrElse(caught.message, DefaultFailure)))
  }

  /** `POST(request)`, with the provider's answers as inputs. */
  function Post(body: RequestBody, verify: VerifyOutcome, update: UpdateOutcome): Handled {
    if body.Malformed? then Handled(Escapes, [])
    else
      var token := Field(body, "token");
      var password := Field(body, "password");
      if !Truthy(token) || !Truthy(password) then Handled(Respond(Json(400, ErrorBody(FieldsRequired))), [])
      else
        var verifyCall := [VerifyOtp(token)];
        match verify
        case VerifyThrew(e) => Handled(Respond(Failure(e)), verifyCall)
        case VerifyReturned(sessionError, sessionData) =>
          if sessionError.Some? || sessionData.None? then Handled(Respond(Json(400, ErrorBody(TokenRejected))), verifyCall)
          else
            var calls := verifyCall + [UpdateUser(password)];
            match update
            case UpdateThrew(e) => Handled(Respond(Failure(e)), calls)
            // `throw updateError` lands in the same catch block
            case UpdateReturned(Some(e)) => Handled(Respond(Failure(e)), calls)
            case UpdateReturned(None) => Handled(Respond(Json(200, MessageBody(Updated))), calls)
  }

  /** A missing or falsy token or password is a 400 before any provider call. */
  lemma PostRequiresFields(body: RequestBody, verify: VerifyOutcome, update: UpdateOutcome)
    requires body.Fields?
    requires !Truthy(Field(body, "token")) || !Truthy(Field(body, "password"))
    ensures Post(body, verify, update) == Handled(Respond(Json(400, ErrorBody(FieldsRequired))), [])
  {
  }

  /** A verification that reports an error or returns null data is a 400, and
      the password is left alone. */
  lemma PostRejectsBadToken(body: RequestBody, sessionError: Option<ErrorInfo>, sessionData: Option<VerifyData>, update: UpdateOutcome)
    requires body.Fields? && Truthy(Field(body, "token")) && Truthy(Field(body, "password"))
    requires sessionError.Some? || sessionData.None?
    ensures Post(body, VerifyReturned(sessionError, sessionData), update)
      == Handled(Respond(Json(400, ErrorBody(TokenRejected))), [VerifyOtp(Field(body, "token"))])
  {
  }

  /** The password is changed only after a verification that returned data
      and no error, exactly once and with the request's password. Unlike the
      forgot-password PUT, a null user inside the data is not checked. */
  lemma PostUpdatesOnlyAfterVerification(body: RequestBody, verify: VerifyOutcome, update: UpdateOutcome)
    ensures var h := Post(body, verify, update);
      (exists i :: 0 <= i < |h.calls| && h.calls[i].UpdateUser?) <==>
        && body.Fields? && Truthy(Field(body, "token")) && Truthy(Field(body, "password"))
        && verify.VerifyReturned? && verify.error.None? && verify.data.Some?
    ensures var h := Post(body, verify, update);
      (exists i :: 0 <= i < |h.calls| && h.calls[i].UpdateUser?) ==>
        h.calls == [VerifyOtp(Field(body, "token")), UpdateUser(Field(body, "password"))]
  {
    var h := Post(body, verify, update);
    if body.Fields? && Truthy(Field(body, "token")) && Truthy(Field(body, "password"))
       && verify.VerifyReturned? && verify.error.None? && verify.data.Some? {
      assert h.calls[1].UpdateUser?;
    }
  }

  /** The only 200 is a completed update; every exception, the provider's
      own or a thrown update error, is a 500 carrying its message when it has
      one. No reply carries CORS headers. */
  lemma PostStatuses(body: RequestBody, verify: VerifyOutcome, update: UpdateOutcome)
    ensures var h := Post(body, verify, update);
      h.reply.Respond? ==>
        && h.reply.response.status in {200, 400, 500}
        && NoCors(h.reply.response)
        && (h.reply.response.status == 200 <==>
              && body.Fields? && Truthy(Field(body, "token")) && Truthy(Field(body, "password"))
              && verify.VerifyReturned? && verify.error.None? && verify.data.Some?
              && update == UpdateReturned(None))
    ensures body.Fields? && Truthy(Field(body, "token")) && Truthy(Field(body, "password")) ==>
      && (verify.VerifyThrew? ==> Post(body, verify, update).reply == Respond(Failure(verify.thrown)))
      && (verify.VerifyReturned? && verify.error.None? && verify.data.Some? ==>
            && (update == UpdateReturned(None) ==> Post(body, verify, update).reply == Respond(Json(200, MessageBody(Updated))))
            && (update.UpdateReturned? && update.error.Some? ==> Post(body, verify, update).reply == Respond(Failure(update.error.value)))
            && (update.UpdateThrew? ==> Post(body, verify, update).reply == Respond(Failure(update.thrown))))
  {
  }
}
