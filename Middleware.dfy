/**
 * The route guard (src/middleware.ts): the decision it takes for a request
 * from the token cookie, the outcome of verifying that token and the path,
 * and the matcher that decides which paths it runs on at all.
 */
module Middleware {
  import opened Common

  /** The claims of a verified token, as far as the guard reads them. */
  datatype Claims = Claims(role: Option<string>)

  /** verifyToken either throws or yields the decoded claims, which may be null. */
  datatype Verification = Threw | Decoded(claims: Option<Claims>)

  datatype Decision = RedirectToLogin(deleteToken: bool) | RedirectToUnauthorized | Next

  predicate StartsWith(s: string, prefix: string)
  {
    |prefix| <= |s| && s[..|prefix|] == prefix
  }

  /** A value that JavaScript treats as true: present and not the empty string. */
  predicate Truthy(v: Option<string>)
  {
    v.Some? && v.value != ""
  }

  /** The roles the dashboard check admits. */
  const DashboardRoles: seq<string> := ["ADMIN", "USER"]

  /** `middleware(req)`: `verification` is what verifyToken does with the token. */
  function Guard(token: Option<string>, verification: Verification, pathname: string): Decision
  {
    if !Truthy(token) then RedirectToLogin(false)
    else if verification.Threw? then RedirectToLogin(true)
    else if verification.claims.None? || !Truthy(verification.claims.value.role) then RedirectToLogin(false)
    else
      var role := verification.claims.value.role.value;
      if StartsWith(pathname, "/admin") && role != "ADMIN" then RedirectToUnauthorized
      else if StartsWith(pathname, "/dashboard") && role !in DashboardRoles then RedirectToUnauthorized
      else Next
  }

  /** `config.matcher`: `/my-profile/:path*` and `/admin/:path*`. */
  predicate Matched(pathname: string)
  {
    || pathname == "/my-profile" || StartsWith(pathname, "/my-profile/")
    || pathname == "/admin" || StartsWith(pathname, "/admin/")
  }

  /** What a request meets: the guard on matched paths, and nothing elsewhere. */
  function Route(token: Option<string>, verification: Verification, pathname: string): (d: Decision)
    ensures !Matched(pathname) ==> d == Next
    ensures Matched(pathname) ==> d == Guard(token, verification, pathname)
  {
    if Matched(pathname) then Guard(token, verification, pathname) else Next
  }

  // ---------------------------------------------------------------------
  // Properties
  // ---------------------------------------------------------------------

  /** Without a token cookie (or with an empty one) the guard always sends the visitor to log in. */
  lemma NoTokenMeansLogin(token: Option<string>, verification: Verification, pathname: string)
    requires !Truthy(token)
    ensures Guard(token, verification, pathname) == RedirectToLogin(false)
  {
  }

  /** A token that decodes to nothing, or to claims without a role, sends the visitor to log in. */
  lemma NoRoleMeansLogin(token: Option<string>, claims: Option<Claims>, pathname: string)
    requires Truthy(token)
    requires claims.None? || !Truthy(claims.value.role)
    ensures Guard(token, Decoded(claims), pathname) == RedirectToLogin(false)
  {
  }

  /**
   * The admin test is a prefix test, so `/administrator` is gated for a
   * non-admin; the matcher, however, never runs the guard on that path.
   */
  lemma AdministratorPrefix(token: Option<string>, role: string)
    requires Truthy(token) && role != "" && role != "ADMIN"
    ensures Guard(token, Decoded(Some(Claims(Some(role)))), "/administrator") == RedirectToUnauthorized
    ensures Route(token, Decoded(Some(Claims(Some(role)))), "/administrator") == Next
  {
    assert !Matched("/administrator") by {
      assert "/administrator"[..7][6] != "/admin/"[6];
      assert "/administrator"[..12][1] != "/my-profile/"[1];
    }
  }

  /** An admin is never sent to the unauthorized page. */
  lemma AdminNeverUnauthorized(token: Option<string>, pathname: string)
    ensures Guard(token, Decoded(Some(Claims(Some("ADMIN")))), pathname) != RedirectToUnauthorized
  {
  }

  /** The guard deletes the token cookie exactly when verifying a present token throws. */
  lemma OnlyFailedVerificationDeletesToken(token: Option<string>, verification: Verification, pathname: string)
    ensures Guard(token, verification, pathname) == RedirectToLogin(true) <==> Truthy(token) && verification.Threw?
  {
  }

  /** The guard lets a request through exactly when its token carries a role the path admits. */
  lemma PassesExactly(token: Option<string>, verification: Verification, pathname: string)
    ensures Guard(token, verification, pathname) == Next <==>
      && Truthy(token) && verification.Decoded? && verification.claims.Some?
      && Truthy(verification.claims.value.role)
      && (StartsWith(pathname, "/admin") ==> verification.claims.value.role.value == "ADMIN")
      && (StartsWith(pathname, "/dashboard") ==> verification.claims.value.role.value in DashboardRoles)
  {
  }

  /** Two prefixes that differ in their second character cannot both start the same path. */
  lemma PrefixesExclude(s: string, p: string, q: string)
    requires |p| >= 2 && |q| >= 2 && p[1] != q[1]
    requires StartsWith(s, p)
    ensures !StartsWith(s, q)
  {
    assert s[1] == s[..|p|][1];
  }

  /** No path the matcher admits starts with `/dashboard`, so that check never decides anything. */
  lemma DashboardCheckUnreachable(pathname: string)
    requires Matched(pathname)
    ensures !StartsWith(pathname, "/dashboard")
  {
    if pathname == "/my-profile" || StartsWith(pathname, "/my-profile/") {
      PrefixesExclude(pathname, "/my-profile", "/dashboard");
    } else {
      PrefixesExclude(pathname, "/admin", "/dashboard");
    }
  }

  /** Under the matcher the guard decides as if the dashboard check were absent. */
  lemma RouteIgnoresDashboardRule(token: Option<string>, verification: Verification, pathname: string)
    requires Matched(pathname)
    requires Truthy(token) && verification.Decoded? && verification.claims.Some?
    requires Truthy(verification.claims.value.role)
    ensures Route(token, verification, pathname) ==
      if StartsWith(pathname, "/admin") && verification.claims.value.role.value != "ADMIN"
      then RedirectToUnauthorized else Next
  {
    DashboardCheckUnreachable(pathname);
  }
}
