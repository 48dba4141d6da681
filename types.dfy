/**
 * The value shapes of the front-end: the optional values JavaScript writes as
 * `null`/`undefined`, the uniform `ApiResponse` envelope, the catalog and user
 * records, and the JSON bodies the client sends.
 */
module Types {

  datatype Option<+T> = None | Some(value: T)

  /** JavaScript truthiness of a `string | null | undefined`: neither absent nor the empty string. */
  function Truthy(s: Option<string>): (r: bool)
    ensures r <==> s != None && s != Some("")
  {
    s.Some? && s.value != ""
  }

  /** `s.startsWith(prefix)`: `s` is at least as long and agrees with `prefix` on its first characters. */
  function StartsWith(s: string, prefix: string): (r: bool)
    ensures r <==> |prefix| <= |s| && forall i :: 0 <= i < |prefix| ==> s[i] == prefix[i]
  {
    |prefix| <= |s| && s[..|prefix|] == prefix
  }

  /**
   * `s.includes(part)`: `part` occurs in `s` at a position where it fits. A
   * prefix occurs, and a part longer than `s` never does.
   */
  function Contains(s: string, part: string): (r: bool)
    ensures StartsWith(s, part) ==> r
    ensures |s| < |part| ==> !r
  {
    assert s[0..] == s;
    exists i :: 0 <= i <= |s| - |part| && StartsWith(s[i..], part)
  }

  /** A map lookup in the style of `localStorage.getItem`: `null` for a missing key. */
  function GetItem(m: map<string, string>, key: string): (r: Option<string>)
    ensures r.Some? <==> key in m
    ensures r.Some? ==> r.value == m[key]
  {
    if key in m then Some(m[key]) else None
  }

  /**
   * The envelope every remote call answers with. `result` is `None` when the
   * server sent a falsy result (or the client made the envelope up itself).
   */
  datatype ApiResponse<+T> = ApiResponse(
    result: Option<T>,
    hasError: bool,
    errorCode: int,
    errorMessage: Option<string>)

  /** The test `!response.hasError && response.result` that every caller applies: no error, and a result to read. */
  function Succeeded<T>(r: ApiResponse<T>): (ok: bool)
    ensures ok <==> !r.hasError && r.result != None
  {
    !r.hasError && r.result.Some?
  }

  datatype User = User(id: string, email: string, role: string, name: Option<string>)

  /** What the code reads from a login or refresh result: two tokens and a role, which may be absent. */
  datatype LoginResult = LoginResult(accessToken: string, refreshToken: string, role: Option<string>)

  /** A role as the server enumerates it. */
  datatype Role = Role(id: int, name: string)

  datatype Product = Product(
    id: string,
    name: string,
    price: real,
    quantity: int,
    createdBy: string,
    createdAt: string,
    updatedBy: string,
    updatedAt: string)

  datatype ProductListResponse = ProductListResponse(
    items: seq<Product>,
    totalCount: int,
    pageSize: int,
    currentPage: int,
    totalPages: int)

  /** An acknowledgement whose content no caller reads. */
  datatype Ack = Ack

  /** The JSON objects the client sends as request bodies. */
  datatype Body =
    | LoginRequest(email: string, password: string)
    | RefreshRequest(refreshToken: string)
    | EmptyObject
    | ForgotPasswordRequest(email: string)
    | SetPasswordRequest(token: string, password: string, confirmPassword: string)
    | CreateUserRequest(email: string, name: string, role: int)
}
