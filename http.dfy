/** Responses of the route handlers and the CORS headers that the password
    routes attach. Header names are compared without regard to case, so they
    are written here in lower case throughout. */
module Http {

  /** The JSON body of a response: `{ error }`, `{ message }`, or none. */
  datatype Body = NoBody | ErrorBody(error: string) | MessageBody(message: string)

  datatype Response = Response(status: int, body: Body, headers: map<string, string>)

  /** What a route handler does with a request: answer it, or let an exception
      escape to the framework (a request body that is not valid JSON, or is
      `null`, makes `await request.json()` or the destructuring after it throw
      before any try block). */
  datatype Reply = Respond(response: Response) | Escapes

  const ContentTypeJson: map<string, string> := map["content-type" := "application/json"]

  /** The three headers `OPTIONS` sends and `addCorsHeaders` sets. */
  const CorsHeaders: map<string, string> := map[
    "access-control-allow-origin" := "*",
    "access-control-allow-methods" := "GET, POST, PUT, OPTIONS",
    "access-control-allow-headers" := "Content-Type, Authorization"
  ]

  /** The response carries all three CORS headers with their values. */
  predicate HasCors(r: Response) {
    forall name :: name in CorsHeaders ==> name in r.headers && r.headers[name] == CorsHeaders[name]
  }

  /** The response carries none of the CORS headers. */
  predicate NoCors(r: Response) {
    forall name :: name in CorsHeaders ==> name !in r.headers
  }

  /** `NextResponse.json(body, { status })`. */
  function Json(status: int, body: Body): (r: Response)
    ensures r.status == status && r.body == body && NoCors(r)
  {
    Response(status, body, ContentTypeJson)
  }

  /** `new NextResponse(null, { status: 204 })` without headers. */
  function EmptyNoContent(): (r: Response)
    ensures r.status == 204 && r.body == NoBody && NoCors(r)
  {
    Response(204, NoBody, map[])
  }

  /** A header map after the three CORS headers are set on it: they carry
      their values and every other header is kept. */
  function WithCorsHeaders(headers: map<string, string>): (r: map<string, string>)
    ensures r.Keys == headers.Keys + CorsHeaders.Keys
    ensures forall name :: name in CorsHeaders ==> r[name] == CorsHeaders[name]
    ensures forall name :: name in headers && name !in CorsHeaders ==> r[name] == headers[name]
  {
    headers + CorsHeaders
  }

  /** `addCorsHeaders(response)` on a response value. */
  function AddCors(r: Response): (c: Response)
    ensures c.status == r.status && c.body == r.body && HasCors(c)
    ensures c.headers == WithCorsHeaders(r.headers)
  {
    r.(headers := WithCorsHeaders(r.headers))
  }

  /** A response's header list, which `headers.set` changes in place. */
  class Headers {
    var entries: map<string, string>

    constructor (initial: map<string, string>)
      ensures entries == initial
    {
      entries := initial;
    }

    /** `headers.set(name, value)`: replaces any value the header had. */
    method Set(name: string, value: string)
      modifies this
      ensures entries == old(entries)[name := value]
    {
      entries := entries[name := value];
    }
  }

  /** `addCorsHeaders`: three `headers.set` calls on the response's own
      header list. */
  method AddCorsHeaders(h: Headers)
    modifies h
    ensures h.entries == WithCorsHeaders(old(h.entries))
  {
    ghost var before := h.entries;
    h.Set("access-control-allow-origin", "*");
    h.Set("access-control-allow-methods", "GET, POST, PUT, OPTIONS");
    h.Set("access-control-allow-headers", "Content-Type, Authorization");
    ThreeSetsAddCors(before);
  }

  /** Setting the three headers one after the other is adding the CORS map. */
  lemma ThreeSetsAddCors(m: map<string, string>)
    ensures m["access-control-allow-origin" := "*"]
             ["access-control-allow-methods" := "GET, POST, PUT, OPTIONS"]
             ["access-control-allow-headers" := "Content-Type, Authorization"]
            == WithCorsHeaders(m)
  {
  }
}
