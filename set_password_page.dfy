/**
 * The set-password page: the reset token taken from the link, the
 * password-match check, and the submission through the provider's
 * `setPassword`.
 */
module SetPasswordPage {
  import opened Types
  import opened Api
  import opened AuthContext

  /** The submit button's `disabled`: while submitting, or without a token. */
  function SubmitDisabled(isLoading: bool, token: string): (r: bool)
    ensures !r <==> !isLoading && Truthy(Some(token))
  {
    isLoading || token == ""
  }

  class SetPasswordPage {
    var password: string
    var confirmPassword: string
    var token: string
    var isLoading: bool
    /** The targets of `router.push`, in order. */
    var pushes: seq<string>
    const auth: AuthProvider

    constructor (auth: AuthProvider)
      ensures this.auth == auth
      ensures password == "" && confirmPassword == "" && token == "" && !isLoading && pushes == []
    {
      this.auth := auth;
      password := "";
      confirmPassword := "";
      token := "";
      isLoading := false;
      pushes := [];
    }

    /** The effect on the query string: keep a truthy `token` parameter, else leave for the login page. */
    method ReadToken(tokenParam: Option<string>)
      modifies this
      ensures Truthy(tokenParam) ==> token == tokenParam.value && pushes == old(pushes)
      ensures !Truthy(tokenParam) ==> token == old(token) && pushes == old(pushes) + [LoginPage]
      ensures password == old(password) && confirmPassword == old(confirmPassword) && isLoading == old(isLoading)
    {
      if Truthy(tokenParam) {
        token := tokenParam.value;
      } else {
        pushes := pushes + [LoginPage];
      }
    }

    /**
     * `handleSubmit`: differing passwords send nothing; otherwise the token
     * and both passwords go out as held, and success leads to the login page.
     */
    method HandleSubmit(out: Outcomes<Ack>)
      modifies this, auth.api
      ensures password != confirmPassword ==>
        auth.api.Snapshot() == old(auth.api.Snapshot()) && auth.api.effects == old(auth.api.effects)
        && pushes == old(pushes) && isLoading == old(isLoading)
      ensures password == confirmPassword ==>
        var step := RequestSpec(old(auth.api.Snapshot()),
                                Req(SetPasswordEndpoint, "POST", Some(SetPasswordRequest(token, password, confirmPassword))),
                                true, out);
        && auth.api.Snapshot() == step.after
        && auth.api.effects == old(auth.api.effects) + step.effects
        && pushes == old(pushes) + (if PassThrough(step.value) then [LoginPage] else [])
        && !isLoading
      ensures password == old(password) && confirmPassword == old(confirmPassword) && token == old(token)
    {
      if password != confirmPassword {
        return;
      }
      isLoading := true;
      var success := auth.SetPassword(token, password, confirmPassword, out);
      if success {
        pushes := pushes + [LoginPage];
      }
      isLoading := false;
    }
  }
}
