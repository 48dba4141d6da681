/**
 * The add-user page: the role list it fetches and the default it picks, the
 * required-field check, and the submission through the provider's
 * `createUser`.
 *
 * The page holds the provider it submits through; the role list is fetched
 * with the provider's HTTP client, and the network's answers are `out`
 * parameters.
 */
module AddUserPage {
  import opened Types
  import opened Api
  import opened Numerals
  import opened AuthContext

  const RolesEndpoint: string := "/Role"
  const ProductsLanding: string := "/products"

  /** The selected role is empty or the string form of a listed role's id. */
  predicate RoleChosen(roles: seq<Role>, role: string)
  {
    role == "" || exists i :: 0 <= i < |roles| && role == IntToString(roles[i].id)
  }

  /** `!name || !email || !role`: the form is incomplete. */
  function MissingField(name: string, email: string, role: string): (r: bool)
    ensures r <==> !Truthy(Some(name)) || !Truthy(Some(email)) || !Truthy(Some(role))
  {
    name == "" || email == "" || role == ""
  }

  /** The submit button's `disabled`. */
  function SubmitDisabled(isLoading: bool, isFetchingRoles: bool, roles: seq<Role>): (r: bool)
    ensures !r <==> !isLoading && !isFetchingRoles && |roles| > 0
  {
    isLoading || isFetchingRoles || |roles| == 0
  }

  /** The role that a fetched list selects: the first id as text, or no change for an empty list. */
  function DefaultRole(roles: seq<Role>, role: string): (r: string)
    ensures |roles| > 0 ==> r == IntToString(roles[0].id) && NumberOf(r) == Some(roles[0].id)
    ensures |roles| == 0 ==> r == role
  {
    if |roles| > 0 then
      NumberOfIntToString(roles[0].id);
      IntToString(roles[0].id)
    else role
  }

  /** A chosen role reads back, through `Number`, as the id of a listed role. */
  lemma ChosenRoleNumber(roles: seq<Role>, role: string)
    requires RoleChosen(roles, role) && role != ""
    ensures NumberOf(role).Some?
    ensures exists i :: 0 <= i < |roles| && NumberOf(role).value == roles[i].id
  {
    var i :| 0 <= i < |roles| && role == IntToString(roles[i].id);
    NumberOfIntToString(roles[i].id);
  }

  class AddUserPage {
    var name: string
    var email: string
    var role: string
    var roles: seq<Role>
    var isLoading: bool
    var isFetchingRoles: bool
    /** The targets of `router.push`, in order. */
    var pushes: seq<string>
    const auth: AuthProvider

    predicate Valid()
      reads this
    {
      RoleChosen(roles, role)
    }

    constructor (auth: AuthProvider)
      ensures this.auth == auth && Valid()
      ensures name == "" && email == "" && role == "" && roles == []
      ensures !isLoading && isFetchingRoles && pushes == []
    {
      this.auth := auth;
      name := "";
      email := "";
      role := "";
      roles := [];
      isLoading := false;
      isFetchingRoles := true;
      pushes := [];
    }

    /**
     * `fetchRoles`, run once when the page mounts, before any role can be
     * chosen: a successful answer replaces the list and selects its first
     * entry; fetching ends whatever the answer.
     */
    method FetchRoles(out: Outcomes<seq<Role>>)
      requires role == ""
      modifies this, auth.api
      ensures var step := RequestSpec(old(auth.api.Snapshot()), Req(RolesEndpoint, "GET", None), true, out);
        && auth.api.Snapshot() == step.after
        && auth.api.effects == old(auth.api.effects) + step.effects
        && (Accepted(step.value) ==>
              roles == step.value.value.result.value && role == DefaultRole(roles, old(role)))
        && (!Accepted(step.value) ==> roles == old(roles) && role == old(role))
      ensures Valid() && !isFetchingRoles
      ensures name == old(name) && email == old(email) && isLoading == old(isLoading) && pushes == old(pushes)
    {
      isFetchingRoles := true;
      var response := auth.api.Get(RolesEndpoint, out);
      if Accepted(response) {
        roles := response.value.result.value;
        if |roles| > 0 {
          role := DefaultRole(roles, role);
        }
      }
      isFetchingRoles := false;
    }

    /** Choosing the `i`-th listed role. */
    method SelectRole(i: int)
      requires 0 <= i < |roles|
      modifies this
      ensures roles == old(roles) && name == old(name) && email == old(email)
      ensures Valid()
      ensures role == IntToString(roles[i].id) && NumberOf(role) == Some(roles[i].id)
      ensures isLoading == old(isLoading) && isFetchingRoles == old(isFetchingRoles) && pushes == old(pushes)
    {
      role := IntToString(roles[i].id);
      NumberOfIntToString(roles[i].id);
    }

    /**
     * `handleSubmit`: an incomplete form sends nothing; otherwise the payload
     * carries the name, the email and the role as a number, and success goes
     * to the product list.
     */
    method HandleSubmit(out: Outcomes<User>)
      requires Valid()
      modifies this, auth.api
      ensures MissingField(name, email, role) ==>
        auth.api.Snapshot() == old(auth.api.Snapshot()) && auth.api.effects == old(auth.api.effects)
        && pushes == old(pushes) && isLoading == old(isLoading)
      ensures !MissingField(name, email, role) ==>
        NumberOf(role).Some? &&
        (exists i :: 0 <= i < |roles| && NumberOf(role).value == roles[i].id) &&
        var step := RequestSpec(old(auth.api.Snapshot()),
                                Req(CreateUserEndpoint, "POST", Some(CreateUserRequest(email, name, NumberOf(role).value))),
                                true, out);
        && auth.api.Snapshot() == step.after
        && auth.api.effects == old(auth.api.effects) + step.effects
        && pushes == old(pushes) + (if PassThrough(step.value) then [ProductsLanding] else [])
        && !isLoading
      ensures name == old(name) && email == old(email) && role == old(role) && roles == old(roles)
      ensures isFetchingRoles == old(isFetchingRoles) && Valid()
    {
      if name == "" || email == "" || role == "" {
        return;
      }
      isLoading := true;
      ChosenRoleNumber(roles, role);
      ghost var chosen :| 0 <= chosen < |roles| && NumberOf(role).value == roles[chosen].id;
      var success := auth.CreateUser(email, name, NumberOf(role).value, out);
      if success {
        pushes := pushes + [ProductsLanding];
      }
      isLoading := false;
      assert NumberOf(role).value == roles[chosen].id;
    }
  }
}
