/** The hosted auth provider as the password routes see it: each call is
    recorded, and what it returns (or throws) is an input to the handler. */
module AuthProvider {
  import opened Js
  import Http

  /** An error object the provider returns or throws; its `message` may be
      missing. */
  datatype ErrorInfo = ErrorInfo(message: Option<string>)

  /** The calls a handler makes, in order. */
  datatype AuthCall =
    | ResetPasswordForEmail(email: Value, redirectTo: string)
    | VerifyOtp(tokenHash: Value)
    | UpdateUser(password: Value)

  /** `resetPasswordForEmail(...)`: resolves with an optional error, or throws. */
  datatype ResetOutcome = ResetReturned(error: Option<ErrorInfo>) | ResetThrew(thrown: ErrorInfo)

  /** `verifyOtp({ token_hash, type: 'recovery' })`: resolves with an optional
      error and a `data` object (absent means null) whose `user` may be null,
      or throws. */
  datatype VerifyOutcome =
    | VerifyReturned(error: Option<ErrorInfo>, data: Option<VerifyData>)
    | VerifyThrew(thrown: ErrorInfo)

  datatype VerifyData = VerifyData(hasUser: bool)

  /** `updateUser({ password })`: resolves with an optional error, or throws. */
  datatype UpdateOutcome = UpdateReturned(error: Option<ErrorInfo>) | UpdateThrew(thrown: ErrorInfo)

  /** A route handler's reply together with the provider calls it made, in
      order. */
  datatype Handled = Handled(reply: Http.Reply, calls: seq<AuthCall>)

  /** The request body after `await request.json()`: the fields it has, or a
      body that makes that call or the destructuring after it throw (one that
      is not valid JSON, or is `null`). Any other JSON value destructures to
      missing fields: a number, string, boolean or array is `Fields(map[])`. */
  datatype RequestBody = Malformed | Fields(fields: map<string, Value>)

  /** `const { name } = body`: a missing field is undefined. */
  function Field(body: RequestBody, name: string): Value
    requires body.Fields?
  {
    if name in body.fields then body.fields[name] else Undefined
  }
}
