/**
 * The authentication provider (`AuthProvider`): the role, user and loading
 * state the pages read, its hydration from storage, its reaction to storage
 * events from other tabs, and the operations that go through the HTTP client.
 *
 * The provider holds the one `ApiService` object; the network's answers to
 * each operation's request are its `out` parameter, and `router.push` targets
 * are recorded in `pushes`.
 */
module AuthContext {
  import opened Types
  import opened Api

  const LoginEndpoint: string := "/User/Login"
  const LogoutEndpoint: string := "/User/Logout"
  const ForgotPasswordEndpoint: string := "/User/forgot-password"
  const SetPasswordEndpoint: string := "/User/set-password"
  const CreateUserEndpoint: string := "/User"

  /** `isAuthenticated: !!role`. */
  function IsAuthenticated(role: Option<string>): (r: bool)
    ensures r <==> role.Some? && role.value != ""
  {
    Truthy(role)
  }

  /** The role hydration installs: the stored role, when both it and an access token are stored. */
  function HydratedRole(storage: map<string, string>, role: Option<string>): (r: Option<string>)
    ensures Truthy(GetItem(storage, AccessTokenKey)) && Truthy(GetItem(storage, UserRoleKey)) ==>
      r == GetItem(storage, UserRoleKey)
    ensures !(Truthy(GetItem(storage, AccessTokenKey)) && Truthy(GetItem(storage, UserRoleKey))) ==> r == role
  {
    var userRole := GetItem(storage, UserRoleKey);
    var accessToken := GetItem(storage, AccessTokenKey);
    if Truthy(accessToken) && Truthy(userRole) then userRole else role
  }

  /**
   * The text `localStorage.setItem` stores for a value: the string itself,
   * or "undefined" for an absent one.
   */
  function StoredText(value: Option<string>): (t: string)
    ensures value.Some? ==> t == value.value
    ensures value.None? ==> t == "undefined" && Truthy(Some(t))
  {
    match value
    case Some(text) => text
    case None => "undefined"
  }

  /**
   * The session after a successful login: `setTokens` with the result, and
   * the role written to storage once more, unconditionally.
   */
  function LoginSession(s: Session, granted: LoginResult): (t: Session)
    ensures t.accessToken == Some(granted.accessToken) && t.refreshToken == Some(granted.refreshToken)
    ensures GetItem(t.storage, AccessTokenKey) == Some(granted.accessToken)
    ensures GetItem(t.storage, RefreshTokenKey) == Some(granted.refreshToken)
    ensures GetItem(t.storage, UserRoleKey) == Some(StoredText(granted.role))
    ensures AgreeOutside(t.storage, s.storage, SessionKeys)
    ensures t.refreshPending == s.refreshPending
    ensures Consistent(t)
  {
    var stored := SetTokensSpec(s, granted.accessToken, granted.refreshToken, granted.role);
    stored.(storage := stored.storage[UserRoleKey := StoredText(granted.role)])
  }

  /** `!response.hasError`, and false when the call rejected. */
  function PassThrough<T>(response: Settled<ApiResponse<T>>): (ok: bool)
    ensures ok <==> response.Resolved? && !response.value.hasError
  {
    match response
    case Resolved(data) => !data.hasError
    case Rejected => false
  }

  /** A reload after a login with a non-empty token and role hydrates to the role that login set. */
  lemma ReloadAfterLogin(s: Session, granted: LoginResult)
    requires granted.accessToken != "" && Truthy(granted.role)
    ensures HydratedRole(LoginSession(s, granted).storage, None) == granted.role
  {
  }

  /**
   * A login whose result carries no role leaves the provider signed out
   * (`setRole(undefined)`), yet stores the text "undefined", so a reload
   * hydrates to that string and counts as signed in.
   */
  lemma ReloadAfterRolelessLogin(s: Session, granted: LoginResult)
    requires granted.accessToken != "" && granted.role.None?
    ensures !IsAuthenticated(granted.role)
    ensures HydratedRole(LoginSession(s, granted).storage, None) == Some("undefined")
    ensures IsAuthenticated(HydratedRole(LoginSession(s, granted).storage, None))
  {
  }

  /** A reload after the session was cleared (a logout, a failed refresh) hydrates to no role. */
  lemma ReloadAfterClear(s: Session)
    ensures HydratedRole(ClearTokensSpec(s).storage, None).None?
    ensures !IsAuthenticated(HydratedRole(ClearTokensSpec(s).storage, None))
  {
  }

  class AuthProvider {
    var user: Option<User>
    var role: Option<string>
    var isLoading: bool
    /** The targets of `router.push`, in order. */
    var pushes: seq<string>
    const api: ApiService

    constructor (api: ApiService)
      ensures this.api == api
      ensures user.None? && role.None? && isLoading && pushes == []
    {
      this.api := api;
      user := None;
      role := None;
      isLoading := true;
      pushes := [];
    }

    /** The mount effect: take the role from storage when a token is stored beside it. */
    method Hydrate()
      modifies this
      ensures role == HydratedRole(api.storage, old(role))
      ensures !isLoading
      ensures user == old(user) && pushes == old(pushes)
    {
      var userRole := GetItem(api.storage, UserRoleKey);
      var accessToken := GetItem(api.storage, AccessTokenKey);
      if Truthy(accessToken) && Truthy(userRole) {
        role := userRole;
        isLoading := false;
      } else {
        isLoading := false;
      }
    }

    /** `handleStorageChange`: another tab changed `key` to `newValue` (`None`: removed). */
    method HandleStorageChange(key: Option<string>, newValue: Option<string>)
      modifies this
      ensures key == Some(UserRoleKey) ==>
        role == newValue && user == old(user) && pushes == old(pushes)
      ensures key == Some(AccessTokenKey) && newValue.None? ==>
        role.None? && user.None? && pushes == old(pushes) + [LoginPage]
      ensures key != Some(UserRoleKey) && !(key == Some(AccessTokenKey) && newValue.None?) ==>
        role == old(role) && user == old(user) && pushes == old(pushes)
      ensures isLoading == old(isLoading)
    {
      if key == Some(UserRoleKey) {
        role := newValue;
      } else if key == Some(AccessTokenKey) && newValue.None? {
        role := None;
        user := None;
        pushes := pushes + [LoginPage];
      }
    }

    method Login(email: string, password: string, out: Outcomes<LoginResult>) returns (ok: bool)
      modifies this, api
      ensures var step := RequestSpec(old(api.Snapshot()), Req(LoginEndpoint, "POST", Some(LoginRequest(email, password))), true, out);
        && ok == Accepted(step.value)
        && (ok ==> var granted := step.value.value.result.value;
                   api.Snapshot() == LoginSession(step.after, granted) && role == granted.role)
        && (!ok ==> api.Snapshot() == step.after && role == old(role))
        && api.effects == old(api.effects) + step.effects
      ensures user == old(user) && isLoading == old(isLoading) && pushes == old(pushes)
    {
      var response := api.Post(LoginEndpoint, LoginRequest(email, password), out);
      if Accepted(response) {
        var granted := response.value.result.value;
        api.SetTokens(granted.accessToken, granted.refreshToken, granted.role);
        api.storage := api.storage[UserRoleKey := StoredText(granted.role)];
        role := granted.role;
        return true;
      }
      return false;
    }

    /** Logout clears the session and goes to the login page whatever the server or the network did. */
    method Logout(out: Outcomes<Ack>)
      modifies this, api
      ensures var step := RequestSpec(old(api.Snapshot()), Req(LogoutEndpoint, "POST", Some(EmptyObject)), true, out);
        && api.Snapshot() == ClearTokensSpec(step.after)
        && api.effects == old(api.effects) + step.effects
      ensures api.accessToken.None? && api.refreshToken.None?
      ensures GetItem(api.storage, AccessTokenKey).None? && GetItem(api.storage, RefreshTokenKey).None?
      ensures GetItem(api.storage, UserRoleKey).None?
      ensures user.None? && role.None? && !IsAuthenticated(role)
      ensures pushes == old(pushes) + [LoginPage] && isLoading == old(isLoading)
    {
      var response := api.Post(LogoutEndpoint, EmptyObject, out);
      // finally:
      api.ClearTokens();
      user := None;
      role := None;
      pushes := pushes + [LoginPage];
    }

    method ForgotPassword(email: string, out: Outcomes<Ack>) returns (ok: bool)
      modifies api
      ensures var step := RequestSpec(old(api.Snapshot()), Req(ForgotPasswordEndpoint, "POST", Some(ForgotPasswordRequest(email))), true, out);
        ok == PassThrough(step.value) && api.Snapshot() == step.after && api.effects == old(api.effects) + step.effects
    {
      var response := api.Post(ForgotPasswordEndpoint, ForgotPasswordRequest(email), out);
      ok := PassThrough(response);
    }

    method SetPassword(token: string, password: string, confirmPassword: string, out: Outcomes<Ack>) returns (ok: bool)
      modifies api
      ensures var step := RequestSpec(old(api.Snapshot()),
                                      Req(SetPasswordEndpoint, "POST", Some(SetPasswordRequest(token, password, confirmPassword))),
                                      true, out);
        ok == PassThrough(step.value) && api.Snapshot() == step.after && api.effects == old(api.effects) + step.effects
    {
      var response := api.Post(SetPasswordEndpoint, SetPasswordRequest(token, password, confirmPassword), out);
      ok := PassThrough(response);
    }

    /** Creating a user does not sign the new user in: the provider's state is untouched. */
    method CreateUser(email: string, name: string, roleId: int, out: Outcomes<User>) returns (ok: bool)
      modifies api
      ensures var step := RequestSpec(old(api.Snapshot()), Req(CreateUserEndpoint, "POST", Some(CreateUserRequest(email, name, roleId))), true, out);
        ok == PassThrough(step.value) && api.Snapshot() == step.after && api.effects == old(api.effects) + step.effects
    {
      var response := api.Post(CreateUserEndpoint, CreateUserRequest(email, name, roleId), out);
      ok := PassThrough(response);
    }
  }
}
