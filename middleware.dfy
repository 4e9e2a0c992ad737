/** The request gate run before every page: public paths and API routes pass,
    other paths need a session or are sent to the login page. */
module Middleware {
  import opened Js

  /** `publicPaths`, in order. */
  const PublicPaths: seq<string> := [
    "/login",
    "/signup",
    "/forgot-password",
    "/update-password",
    "/api/auth/forgot-password",
    "/api/auth/update-password",
    "/auth/callback",
    "/auth/v1",
    "/auth/v1/verify"
  ]

  /** What the gate answers: let the request through (`NextResponse.next()`)
      or redirect it to a path on the same origin. */
  datatype Decision = Pass | Redirect(target: string)

  /** `paths.some(path => pathname.startsWith(path))`. */
  function SomePrefix(paths: seq<string>, pathname: string): (b: bool)
    ensures b <==> exists i :: 0 <= i < |paths| && StartsWith(pathname, paths[i])
  {
    if paths == [] then false
    else if StartsWith(pathname, paths[0]) then true
    else
      var b := SomePrefix(paths[1..], pathname);
      assert forall i :: 1 <= i < |paths| ==> paths[1..][i - 1] == paths[i];
      b
  }

  /** `isPublicPath`. */
  predicate IsPublicPath(pathname: string) {
    SomePrefix(PublicPaths, pathname)
  }

  /** `middleware(request)`, as written, with the session lookup as the
      input `hasSession`. */
  function Gate(pathname: string, hasSession: bool): Decision {
    if IsPublicPath(pathname) || StartsWith(pathname, "/api/") then Pass
    else if !hasSession then Redirect("/login")
    else if hasSession && (pathname == "/login" || pathname == "/signup") then Redirect("/dashboard")
    else Pass
  }

  /** A path is public exactly when it begins with one of the nine listed
      prefixes; the test is on prefixes, so "/loginx" and "/auth/v1/anything"
      are public too. */
  lemma PublicPathIsPrefixTest(pathname: string)
    ensures IsPublicPath(pathname) <==> exists p :: p in PublicPaths && StartsWith(pathname, p)
    ensures IsPublicPath("/loginx") && IsPublicPath("/auth/v1/anything")
  {
    assert StartsWith("/loginx", PublicPaths[0]);
    assert StartsWith("/auth/v1/anything", PublicPaths[7]);
  }

  /** "/dashboard" is neither public nor an API route. */
  lemma DashboardIsPrivate()
    ensures !IsPublicPath("/dashboard") && !StartsWith("/dashboard", "/api/")
  {
    forall i | 0 <= i < |PublicPaths| ensures !StartsWith("/dashboard", PublicPaths[i]) {
      assert "/dashboard"[1] == 'd';
      assert PublicPaths[i][1] != 'd';
    }
  }

  /** Public paths and API routes pass with or without a session. */
  lemma PublicAndApiPass(pathname: string, hasSession: bool)
    requires IsPublicPath(pathname) || StartsWith(pathname, "/api/")
    ensures Gate(pathname, hasSession) == Pass
  {
  }

  /** The password-reset page is public, so a reset link opens it with or
      without a session. */
  lemma ResetPagePasses(hasSession: bool)
    ensures Gate("/update-password", hasSession) == Pass
  {
    assert StartsWith("/update-password", PublicPaths[3]);
  }

  /** Every other path is sent to "/login" without a session and passes with
      one. */
  lemma PrivatePathsNeedSession(pathname: string, hasSession: bool)
    requires !IsPublicPath(pathname) && !StartsWith(pathname, "/api/")
    ensures !hasSession ==> Gate(pathname, hasSession) == Redirect("/login")
    ensures hasSession ==> Gate(pathname, hasSession) == Pass
  {
  }

  lemma LoginAndSignupArePublic()
    ensures IsPublicPath("/login") && IsPublicPath("/signup")
  {
  }

  /** The branch meant to send signed-in users away from "/login" and
      "/signup" can never be taken: both paths are public and pass first. */
  lemma DashboardRedirectUnreachable(pathname: string, hasSession: bool)
    ensures Gate(pathname, hasSession) != Redirect("/dashboard")
  {
  }

  /** The counterexample: a signed-in user asking for "/login" is let through
      to the login page. */
  lemma SignedInUserReachesLogin()
    ensures Gate("/login", true) == Pass
  {
  }

  /** No redirect loop: the only redirect target is public, so following a
      redirect always passes, whatever the session. */
  lemma RedirectTargetPasses(pathname: string, hasSession: bool, laterSession: bool)
    requires Gate(pathname, hasSession).Redirect?
    ensures Gate(pathname, hasSession) == Redirect("/login")
    ensures Gate(Gate(pathname, hasSession).target, laterSession) == Pass
  {
  }

  /** The gate as evidently intended: signed-in users who ask for "/login" or
      "/signup" are sent to the dashboard, checked before the public-path
      pass. */
  function IntendedGate(pathname: string, hasSession: bool): Decision {
    if hasSession && (pathname == "/login" || pathname == "/signup") then Redirect("/dashboard")
    else if IsPublicPath(pathname) || StartsWith(pathname, "/api/") then Pass
    else if !hasSession then Redirect("/login")
    else Pass
  }

  /** The intended gate sends signed-in users away from the sign-in pages,
      agrees with the gate as written everywhere else, and still ends every
      redirect after one hop: "/dashboard" passes with a session and "/login"
      passes without one. */
  lemma IntendedGateRedirectsSignedInUsers(pathname: string, hasSession: bool)
    ensures hasSession && (pathname == "/login" || pathname == "/signup") ==>
      IntendedGate(pathname, hasSession) == Redirect("/dashboard")
    ensures !(hasSession && (pathname == "/login" || pathname == "/signup")) ==>
      IntendedGate(pathname, hasSession) == Gate(pathname, hasSession)
    ensures IntendedGate(pathname, hasSession).Redirect? ==>
      IntendedGate(IntendedGate(pathname, hasSession).target, hasSession) == Pass
  {
  }
}
