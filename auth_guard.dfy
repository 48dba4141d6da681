/**
 * The route guard (`AuthGuard`): on every change of the authentication state,
 * the path, the role or the allowed roles it decides on at most one redirect,
 * and it renders a spinner while the session is still being hydrated.
 */
module AuthGuard {
  import opened Types

  const LoginPath: string := "/login"
  const ForgotPasswordPath: string := "/forgot-password"
  const SetPasswordPath: string := "/set-password"
  const LandingPath: string := "/products"
  const UnauthorizedPath: string := "/unauthorized"

  /** The public entry points, in the order the guard lists them. */
  const AuthPaths: seq<string> := [LoginPath, ForgotPasswordPath, SetPasswordPath]

  /** The test the guard applies to each listed path. */
  predicate MatchesAuthPath(path: string, pathname: string)
  {
    pathname == path || StartsWith(pathname, SetPasswordPath)
  }

  /** `paths.some(path => pathname === path || pathname.startsWith("/set-password"))`. */
  function SomeMatches(paths: seq<string>, pathname: string): (r: bool)
    ensures r <==> exists i :: 0 <= i < |paths| && MatchesAuthPath(paths[i], pathname)
  {
    if paths == [] then false
    else MatchesAuthPath(paths[0], pathname) || SomeMatches(paths[1..], pathname)
  }

  /**
   * A page exempt from the authentication redirect: one of the three entry
   * points, or any path that starts with "/set-password".
   */
  function IsAuthPage(pathname: string): (r: bool)
    ensures r <==> pathname == LoginPath || pathname == ForgotPasswordPath || StartsWith(pathname, SetPasswordPath)
  {
    var r := SomeMatches(AuthPaths, pathname);
    assert MatchesAuthPath(AuthPaths[0], pathname) ==> r;
    assert MatchesAuthPath(AuthPaths[1], pathname) ==> r;
    assert pathname == SetPasswordPath ==> StartsWith(pathname, SetPasswordPath);
    r
  }

  /** `role || ""`. */
  function RoleOrEmpty(role: Option<string>): (r: string)
    ensures Truthy(role) ==> r == role.value
    ensures !Truthy(role) ==> r == ""
  {
    if Truthy(role) then role.value else ""
  }

  /**
   * The redirect the guard's effect issues, if any. With `allowedRoles` given
   * (any array, even an empty one, is truthy), a role outside it is sent to
   * the unauthorized page.
   */
  function Decide(isLoading: bool, isAuthenticated: bool, pathname: string, role: Option<string>,
                  allowedRoles: Option<seq<string>>): (r: Option<string>)
    ensures isLoading ==> r.None?
    ensures !isLoading && !isAuthenticated ==>
      r == if IsAuthPage(pathname) then None else Some(LoginPath)
    ensures !isLoading && isAuthenticated && IsAuthPage(pathname) ==> r == Some(LandingPath)
    ensures !isLoading && isAuthenticated && !IsAuthPage(pathname) ==>
      r == if allowedRoles.Some? && RoleOrEmpty(role) !in allowedRoles.value then Some(UnauthorizedPath) else None
    ensures r == Some(UnauthorizedPath) ==> allowedRoles.Some?
    ensures r.Some? ==> r.value == LoginPath || r.value == LandingPath || r.value == UnauthorizedPath
  {
    if isLoading then None
    else
      var authPage := IsAuthPage(pathname);
      if !isAuthenticated && !authPage then Some(LoginPath)
      else if isAuthenticated && authPage then Some(LandingPath)
      else if isAuthenticated && allowedRoles.Some? && RoleOrEmpty(role) !in allowedRoles.value then
        Some(UnauthorizedPath)
      else None
  }

  datatype View = Spinner | Children

  /** What the guard renders: the spinner while loading, the children otherwise, whatever the redirect. */
  function Render(isLoading: bool): (v: View)
    ensures v == Spinner <==> isLoading
  {
    if isLoading then Spinner else Children
  }

  /**
   * With `isAuthenticated` derived from the role as the provider derives it,
   * the unauthorized redirect compares the role itself: a signed-in user is
   * sent away exactly when a role list is given that lacks the role.
   */
  lemma UnauthorizedMeansRoleNotAllowed(pathname: string, role: Option<string>, allowedRoles: Option<seq<string>>)
    requires Truthy(role) && !IsAuthPage(pathname)
    ensures Decide(false, Truthy(role), pathname, role, allowedRoles) == Some(UnauthorizedPath)
        <==> allowedRoles.Some? && role.value !in allowedRoles.value
  {
  }

  /** A signed-out visitor of the product list is sent to the login page. */
  lemma SignedOutVisitorIsSentToLogin()
    ensures Decide(false, false, LandingPath, None, None) == Some(LoginPath)
  {
    assert |LandingPath| < |SetPasswordPath|;
  }
}
