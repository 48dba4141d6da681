/**
 * The HTTP client and session store of the front-end (`ApiService`).
 *
 * The network is a parameter: every `fetch` the code performs takes its answer
 * from an `Outcomes` value, which holds one outcome for the request's own
 * fetch, one for the token refresh and one for the re-issued request; no
 * top-level request performs more fetches than these three (`RequestBounded`).
 * `localStorage` is the map `storage`. Fetch calls, toasts and assignments to
 * `window.location.href` are recorded, in order, as a sequence of effects.
 *
 * The pure functions over `Session` values state what each operation does;
 * the methods of `class ApiService` do it step by step and are proved to end
 * in the state the functions describe.
 */
module Api {
  import opened Types

  const ApiBaseUrl: string := "https://localhost:7285/api/v1"
  const RefreshEndpoint: string := "/User/RefreshToken"

  const AccessTokenKey: string := "accessToken"
  const RefreshTokenKey: string := "refreshToken"
  const UserRoleKey: string := "userRole"
  /** The three storage keys the session occupies. */
  const SessionKeys: set<string> := {AccessTokenKey, RefreshTokenKey, UserRoleKey}

  const ContentTypeHeader: string := "Content-Type"
  const AuthorizationHeader: string := "Authorization"
  const JsonContentType: string := "application/json"

  const LoginPage: string := "/login"
  const FailedToFetch: string := "Failed to fetch"
  const NetworkError: string := "Network error"

  /**
   * What one `fetch` comes to: a response with a status and a body that
   * decodes to an envelope (`json` is `None` when `response.json()` rejects),
   * or an exception (`error` is its message, `None` when what was thrown is
   * not an `Error`).
   */
  datatype HttpOutcome<+T> =
    | Response(status: int, json: Option<ApiResponse<T>>)
    | Thrown(error: Option<string>)

  /** The answers the network gives to one top-level request. */
  datatype Outcomes<+T> = Outcomes(
    first: HttpOutcome<T>,
    refresh: HttpOutcome<LoginResult>,
    reissue: HttpOutcome<T>)
  {
    /** The answers seen by the re-issued request: its own fetch is the re-issue. */
    function Reissued(): Outcomes<T>
    {
      Outcomes(reissue, refresh, reissue)
    }
  }

  /** How a promise settles. `Rejected` escapes to the caller's `catch`. */
  datatype Settled<+T> = Resolved(value: T) | Rejected

  /**
   * The test `!response.hasError && response.result` that login, the product
   * list and the role list apply to what a call settled to; a rejection fails it.
   */
  function Accepted<T>(response: Settled<ApiResponse<T>>): (ok: bool)
    ensures ok <==> response.Resolved? && !response.value.hasError && response.value.result.Some?
    ensures ok ==> !response.value.hasError
  {
    response.Resolved? && Succeeded(response.value)
  }

  datatype FetchCall = FetchCall(
    url: string,
    httpMethod: string,
    headers: map<string, string>,
    body: Option<Body>)

  /** An observable effect: a fetch of a request, a fetch of the refresh endpoint, a toast, a page load. */
  datatype Effect =
    | Fetch(call: FetchCall)
    | RefreshFetch(call: FetchCall)
    | Toast(description: string)
    | Navigate(href: string)

  /**
   * A refresh that another caller started and that is still in flight, with
   * how it will settle: granting a pair, which its `setTokens` stores, or
   * failing, after its `clearTokens`.
   */
  datatype PendingRefresh = WillGrant(granted: LoginResult) | WillFail

  /**
   * The client's state: the in-memory tokens, the shared refresh slot
   * (`refreshPromise`) and the browser storage.
   */
  datatype Session = Session(
    accessToken: Option<string>,
    refreshToken: Option<string>,
    refreshPending: Option<PendingRefresh>,
    storage: map<string, string>)

  /** The result of an operation, the state after it and the effects it had, in order. */
  datatype Step<+R> = Step(value: R, after: Session, effects: seq<Effect>)

  function Prefixed<R>(pre: seq<Effect>, step: Step<R>): Step<R>
  {
    step.(effects := pre + step.effects)
  }

  /** Effects recorded before a prefixed step, then the step's own, are those of the prefixed step. */
  lemma AppendPrefixed<R>(before: seq<Effect>, pre: seq<Effect>, step: Step<R>)
    ensures (before + pre) + step.effects == before + Prefixed(pre, step).effects
  {
  }

  /** `m` and `m0` hold the same entry, or both none, for every key outside `keys`. */
  ghost predicate AgreeOutside(m: map<string, string>, m0: map<string, string>, keys: set<string>)
  {
    forall k :: k !in keys ==> GetItem(m, k) == GetItem(m0, k)
  }

  // ---------------------------------------------------------------------------
  // Session store

  /** `setTokens(accessToken, refreshToken, role?)`. */
  function SetTokensSpec(s: Session, accessToken: string, refreshToken: string, role: Option<string>): (t: Session)
    ensures t.accessToken == Some(accessToken) && t.refreshToken == Some(refreshToken)
    ensures GetItem(t.storage, AccessTokenKey) == Some(accessToken)
    ensures GetItem(t.storage, RefreshTokenKey) == Some(refreshToken)
    ensures GetItem(t.storage, UserRoleKey) == if Truthy(role) then role else GetItem(s.storage, UserRoleKey)
    ensures AgreeOutside(t.storage, s.storage, SessionKeys)
    ensures t.refreshPending == s.refreshPending
  {
    var stored := s.storage[AccessTokenKey := accessToken][RefreshTokenKey := refreshToken];
    s.(accessToken := Some(accessToken),
       refreshToken := Some(refreshToken),
       storage := if Truthy(role) then stored[UserRoleKey := role.value] else stored)
  }

  /** `clearTokens()`. */
  function ClearTokensSpec(s: Session): (t: Session)
    ensures t.accessToken.None? && t.refreshToken.None?
    ensures GetItem(t.storage, AccessTokenKey).None?
    ensures GetItem(t.storage, RefreshTokenKey).None?
    ensures GetItem(t.storage, UserRoleKey).None?
    ensures AgreeOutside(t.storage, s.storage, SessionKeys)
    ensures t.refreshPending == s.refreshPending
  {
    s.(accessToken := None, refreshToken := None, storage := s.storage - SessionKeys)
  }

  /**
   * The session in which a caller that awaited a pending refresh resumes. The
   * refresh has stored the granted pair or cleared the session, and the
   * caller that started it, which resumes first, has freed the slot.
   */
  function AfterPending(s: Session): (t: Session)
    requires s.refreshPending.Some?
    ensures t.refreshPending.None?
    ensures s.refreshPending.value.WillGrant? ==>
      var granted := s.refreshPending.value.granted;
      && t.accessToken == Some(granted.accessToken) && t.refreshToken == Some(granted.refreshToken)
      && GetItem(t.storage, AccessTokenKey) == Some(granted.accessToken)
      && GetItem(t.storage, RefreshTokenKey) == Some(granted.refreshToken)
    ensures s.refreshPending.value.WillFail? ==>
      && t.accessToken.None? && t.refreshToken.None?
      && (forall k :: k in SessionKeys ==> GetItem(t.storage, k).None?)
    ensures AgreeOutside(t.storage, s.storage, SessionKeys)
    ensures Consistent(t)
  {
    match s.refreshPending.value
    case WillGrant(granted) =>
      SetTokensSpec(s, granted.accessToken, granted.refreshToken, granted.role).(refreshPending := None)
    case WillFail => ClearTokensSpec(s).(refreshPending := None)
  }

  // ---------------------------------------------------------------------------
  // Token refresh

  /**
   * The refresh fetch: a POST of the held refresh token to the refresh
   * endpoint, with a JSON content type and no bearer header.
   */
  function RefreshCall(refreshToken: string): (c: FetchCall)
    ensures c.url == ApiBaseUrl + RefreshEndpoint && c.httpMethod == "POST"
    ensures AuthorizationHeader !in c.headers && GetItem(c.headers, ContentTypeHeader) == Some(JsonContentType)
    ensures c.body == Some(RefreshRequest(refreshToken))
  {
    FetchCall(ApiBaseUrl + RefreshEndpoint, "POST", map[ContentTypeHeader := JsonContentType],
              Some(RefreshRequest(refreshToken)))
  }

  /** The refresh endpoint answered with a status other than 401 and a successful envelope. */
  function RefreshGranted(o: HttpOutcome<LoginResult>): (r: bool)
    ensures r <==> o.Response? && o.status != 401 && o.json.Some?
                   && !o.json.value.hasError && o.json.value.result.Some?
  {
    o.Response? && o.status != 401 && o.json.Some? && Succeeded(o.json.value)
  }

  function Granted(o: HttpOutcome<LoginResult>): LoginResult
    requires RefreshGranted(o)
  {
    o.json.value.result.value
  }

  /**
   * `refreshAccessToken()`: true exactly when there is a refresh token and the
   * server grants a new pair, which is then stored; in every other case the
   * session is cleared.
   */
  function RefreshSpec(s: Session, o: HttpOutcome<LoginResult>): (r: Step<bool>)
    ensures r.value <==> Truthy(s.refreshToken) && RefreshGranted(o)
    ensures r.value ==>
      r.after == SetTokensSpec(s, Granted(o).accessToken, Granted(o).refreshToken, Granted(o).role)
    ensures !r.value ==> r.after == ClearTokensSpec(s)
    ensures r.effects == if Truthy(s.refreshToken) then [RefreshFetch(RefreshCall(s.refreshToken.value))] else []
  {
    if !Truthy(s.refreshToken) then
      Step(false, ClearTokensSpec(s), [])
    else
      var sent := [RefreshFetch(RefreshCall(s.refreshToken.value))];
      match o
      case Thrown(_) => Step(false, ClearTokensSpec(s), sent)
      case Response(status, json) =>
        if status == 401 then
          Step(false, ClearTokensSpec(s), sent)
        else if json.None? then
          Step(false, ClearTokensSpec(s), sent)
        else if Succeeded(json.value) then
          var granted := json.value.result.value;
          Step(true, SetTokensSpec(s, granted.accessToken, granted.refreshToken, granted.role), sent)
        else
          Step(false, ClearTokensSpec(s), sent)
  }

  // ---------------------------------------------------------------------------
  // Requests

  /** `getHeaders()` for a given access token. */
  function HeadersFor(accessToken: Option<string>): (h: map<string, string>)
    ensures GetItem(h, ContentTypeHeader) == Some(JsonContentType)
    ensures AuthorizationHeader in h <==> Truthy(accessToken)
    ensures AuthorizationHeader in h ==> h[AuthorizationHeader] == "Bearer " + accessToken.value
    ensures h.Keys <= {ContentTypeHeader, AuthorizationHeader}
  {
    var plain := map[ContentTypeHeader := JsonContentType];
    if Truthy(accessToken) then plain[AuthorizationHeader := "Bearer " + accessToken.value] else plain
  }

  /** The body a request carries. */
  function AttachedBody(httpMethod: string, body: Option<Body>): (b: Option<Body>)
    ensures b.Some? <==> body.Some? && httpMethod != "GET"
    ensures b.Some? ==> b == body
  {
    if body.Some? && httpMethod != "GET" then body else None
  }

  /** What a request asks for: `request(endpoint, method, body)`. */
  datatype Req = Req(endpoint: string, httpMethod: string, body: Option<Body>)

  /**
   * The fetch a request performs in session `s`: the endpoint under the base
   * URL, the method as given, a bearer header exactly when an access token is
   * held, and a body exactly when one is given and the method is not GET.
   */
  function RequestCall(s: Session, q: Req): (c: FetchCall)
    ensures c.url == ApiBaseUrl + q.endpoint && c.httpMethod == q.httpMethod
    ensures GetItem(c.headers, ContentTypeHeader) == Some(JsonContentType)
    ensures AuthorizationHeader in c.headers <==> Truthy(s.accessToken)
    ensures Truthy(s.accessToken) ==> c.headers[AuthorizationHeader] == "Bearer " + s.accessToken.value
    ensures c.body.Some? <==> q.body.Some? && q.httpMethod != "GET"
    ensures c.body.Some? ==> c.body == q.body
  {
    FetchCall(ApiBaseUrl + q.endpoint, q.httpMethod, HeadersFor(s.accessToken), AttachedBody(q.httpMethod, q.body))
  }

  /** The envelope the client makes up when a refresh after a 401 fails: an error no caller accepts. */
  function AuthenticationFailed<T>(): (r: ApiResponse<T>)
    ensures r.hasError && r.errorCode == 401 && r.errorMessage == Some("Authentication failed")
    ensures !Succeeded(r) && !Accepted(Resolved(r))
  {
    ApiResponse(None, true, 401, Some("Authentication failed"))
  }

  /**
   * The envelope the client makes up when a fetch threw and was not
   * recovered: code 500 carrying the thrown message, an error no caller accepts.
   */
  function NetworkFailure<T>(message: string): (r: ApiResponse<T>)
    ensures r.hasError && r.errorCode == 500 && r.errorMessage == Some(message)
    ensures !Succeeded(r) && !Accepted(Resolved(r))
  {
    ApiResponse(None, true, 500, Some(message))
  }

  /** `error.message` for a thrown `Error`, "Network error" for anything else. */
  function ErrorMessage(error: Option<string>): (m: string)
    ensures error.Some? ==> m == error.value
    ensures error.None? ==> m == NetworkError
  {
    if error.Some? then error.value else NetworkError
  }

  /** `handleResponse(response)` where `json` is what `response.json()` decodes to. */
  function HandleResponseSpec<T>(s: Session, json: Option<ApiResponse<T>>): (r: Step<Settled<ApiResponse<T>>>)
    ensures r.after == s
    ensures r.value.Rejected? <==> json.None?
    ensures json.Some? ==> r.value == Resolved(json.value)
    ensures |r.effects| <= 1
    ensures r.effects != [] <==> json.Some? && json.value.hasError && Truthy(json.value.errorMessage)
    ensures r.effects != [] ==> r.effects[0] == Toast(json.value.errorMessage.value)
  {
    match json
    case None => Step(Rejected, s, [])
    case Some(data) =>
      Step(Resolved(data), s,
           if data.hasError && Truthy(data.errorMessage) then [Toast(data.errorMessage.value)] else [])
  }

  /**
   * `request(endpoint, method, body, retry)`: one fetch, then what
   * `RespondedSpec` or `ThrownSpec` says according to how it settled.
   */
  function RequestSpec<T>(s: Session, q: Req, retry: bool, out: Outcomes<T>): (r: Step<Settled<ApiResponse<T>>>)
    ensures |r.effects| >= 1 && r.effects[0] == Fetch(RequestCall(s, q))
    ensures !retry ==> r.after == s
    ensures s.refreshPending.None? ==> r.after.refreshPending.None?
    ensures r.after.refreshPending.None? || r.after.refreshPending == s.refreshPending
    decreases retry, 2
  {
    Prefixed([Fetch(RequestCall(s, q))],
             match out.first
             case Response(status, json) => RespondedSpec(s, q, retry, out, status, json)
             case Thrown(error) => ThrownSpec(s, q, retry, out, error))
  }

  /**
   * The fetch answered. A 401 with `retry` awaits a pending refresh, or
   * refreshes, and re-issues the request with `retry` false; a failed refresh
   * gives `AuthenticationFailed` and a page load of the login page. Any other
   * answer goes to `handleResponse`.
   */
  function RespondedSpec<T>(s: Session, q: Req, retry: bool, out: Outcomes<T>,
                            status: int, json: Option<ApiResponse<T>>): (r: Step<Settled<ApiResponse<T>>>)
    ensures !(status == 401 && retry) ==> r == HandleResponseSpec(s, json)
    ensures !retry ==> r.after == s
    decreases retry, 1
  {
    if status == 401 && retry then
      if s.refreshPending.Some? then
        var resumed := AfterPending(s);
        if s.refreshPending.value.WillGrant? then
          RequestSpec(resumed, q, false, out.Reissued())
        else
          Step(Resolved(AuthenticationFailed()), resumed, [Navigate(LoginPage)])
      else
        ReauthenticateSpec(s, q, out, AuthenticationFailed())
    else
      HandleResponseSpec(s, json)
  }

  /**
   * The fetch threw. The message is toasted; a "Failed to fetch" with `retry`
   * re-issues after a pending refresh that succeeded, and otherwise refreshes
   * afresh (after a pending refresh that failed, from the session it cleared).
   * What is not recovered gives `NetworkFailure` and a page load of the login
   * page.
   */
  function ThrownSpec<T>(s: Session, q: Req, retry: bool, out: Outcomes<T>,
                         error: Option<string>): (r: Step<Settled<ApiResponse<T>>>)
    ensures |r.effects| >= 1 && r.effects[0] == Toast(ErrorMessage(error))
    ensures !(Contains(ErrorMessage(error), FailedToFetch) && retry) ==>
      r == Step(Resolved(NetworkFailure(ErrorMessage(error))), s, [Toast(ErrorMessage(error)), Navigate(LoginPage)])
    decreases retry, 1
  {
    var message := ErrorMessage(error);
    Prefixed([Toast(message)],
             if Contains(message, FailedToFetch) && retry then
               if s.refreshPending.Some? then
                 var resumed := AfterPending(s);
                 if s.refreshPending.value.WillGrant? then
                   RequestSpec(resumed, q, false, out.Reissued())
                 else
                   ReauthenticateSpec(resumed, q, out, NetworkFailure(message))
               else
                 ReauthenticateSpec(s, q, out, NetworkFailure(message))
             else
               Step(Resolved(NetworkFailure(message)), s, [Navigate(LoginPage)]))
  }

  /**
   * A refresh of the caller's own, the release of the refresh slot, and then
   * either the re-issue with `retry` false or `failure` and a page load of the
   * login page.
   */
  function ReauthenticateSpec<T>(s: Session, q: Req, out: Outcomes<T>, failure: ApiResponse<T>)
    : (r: Step<Settled<ApiResponse<T>>>)
    ensures r.after.refreshPending.None?
    decreases true, 0
  {
    var refreshed := RefreshSpec(s, out.refresh);
    var s1 := refreshed.after.(refreshPending := None);
    if refreshed.value then
      Prefixed(refreshed.effects, RequestSpec(s1, q, false, out.Reissued()))
    else
      Step(Resolved(failure), s1, refreshed.effects + [Navigate(LoginPage)])
  }

  // ---------------------------------------------------------------------------
  // Properties of request

  function Fetches(es: seq<Effect>): nat
  {
    if es == [] then 0 else (if es[0].Fetch? then 1 else 0) + Fetches(es[1..])
  }

  function Refreshes(es: seq<Effect>): nat
  {
    if es == [] then 0 else (if es[0].RefreshFetch? then 1 else 0) + Refreshes(es[1..])
  }

  function Navigations(es: seq<Effect>): nat
  {
    if es == [] then 0 else (if es[0].Navigate? then 1 else 0) + Navigations(es[1..])
  }

  lemma {:induction false} CountsAppend(a: seq<Effect>, b: seq<Effect>)
    ensures Fetches(a + b) == Fetches(a) + Fetches(b)
    ensures Refreshes(a + b) == Refreshes(a) + Refreshes(b)
    ensures Navigations(a + b) == Navigations(a) + Navigations(b)
  {
    if a == [] {
      assert a + b == b;
    } else {
      assert (a + b)[1..] == a[1..] + b;
      CountsAppend(a[1..], b);
    }
  }

  /** When `request` performs a refresh fetch of its own. */
  predicate RefreshWarranted<T>(s: Session, retry: bool, first: HttpOutcome<T>)
  {
    && retry
    && Truthy(s.refreshToken)
    && s.refreshPending.None?
    && match first
       case Response(status, _) => status == 401
       case Thrown(error) => Contains(ErrorMessage(error), FailedToFetch)
  }

  /**
   * A request refreshes at most once, and exactly when its own fetch met a
   * 401 (or a "Failed to fetch") with `retry` set, no pending refresh stood in
   * for it, and there was a refresh token to send. It fetches at most twice
   * (once when `retry` is false) and loads the login page at most once.
   */
  lemma {:induction false} RequestBounded<T>(s: Session, q: Req, retry: bool, out: Outcomes<T>)
    ensures var r := RequestSpec(s, q, retry, out);
      && Refreshes(r.effects) == (if RefreshWarranted(s, retry, out.first) then 1 else 0)
      && 1 <= Fetches(r.effects) <= (if retry then 2 else 1)
      && Navigations(r.effects) <= 1
    decreases retry, 2
  {
    var tail := match out.first
      case Response(status, json) => RespondedSpec(s, q, retry, out, status, json)
      case Thrown(error) => ThrownSpec(s, q, retry, out, error);
    match out.first {
      case Response(status, json) => RespondedBounded(s, q, retry, out, status, json);
      case Thrown(error) => ThrownBounded(s, q, retry, out, error);
    }
    CountsAppend([Fetch(RequestCall(s, q))], tail.effects);
  }

  /** The same bounds for what follows a first fetch that answered: one re-issue at most, none with `retry` false. */
  lemma {:induction false} RespondedBounded<T>(s: Session, q: Req, retry: bool, out: Outcomes<T>,
                                             status: int, json: Option<ApiResponse<T>>)
    ensures var r := RespondedSpec(s, q, retry, out, status, json);
      && Refreshes(r.effects) == (if RefreshWarranted(s, retry, Response(status, json)) then 1 else 0)
      && Fetches(r.effects) <= (if retry then 1 else 0)
      && Navigations(r.effects) <= 1
    decreases retry, 1
  {
    if status == 401 && retry {
      if s.refreshPending.Some? {
        if s.refreshPending.value.WillGrant? {
          RequestBounded(AfterPending(s), q, false, out.Reissued());
        } else {
          assert Navigations([Navigate(LoginPage)]) == 1;
        }
      } else {
        ReauthenticateBounded(s, q, out, AuthenticationFailed());
      }
    } else {
      var h := HandleResponseSpec(s, json);
      assert h.effects == [] || h.effects == [h.effects[0]];
    }
  }

  /** The same bounds for what follows a first fetch that threw, the toast included. */
  lemma {:induction false} ThrownBounded<T>(s: Session, q: Req, retry: bool, out: Outcomes<T>, error: Option<string>)
    ensures var r := ThrownSpec(s, q, retry, out, error);
      && Refreshes(r.effects) == (if RefreshWarranted<T>(s, retry, Thrown(error)) then 1 else 0)
      && Fetches(r.effects) <= (if retry then 1 else 0)
      && Navigations(r.effects) <= 1
    decreases retry, 1
  {
    var message := ErrorMessage(error);
    var rest :=
      if Contains(message, FailedToFetch) && retry then
        if s.refreshPending.Some? then
          if s.refreshPending.value.WillGrant? then RequestSpec(AfterPending(s), q, false, out.Reissued())
          else ReauthenticateSpec(AfterPending(s), q, out, NetworkFailure(message))
        else ReauthenticateSpec(s, q, out, NetworkFailure(message))
      else Step(Resolved(NetworkFailure(message)), s, [Navigate(LoginPage)]);
    assert ThrownSpec(s, q, retry, out, error) == Prefixed([Toast(message)], rest);
    if Contains(message, FailedToFetch) && retry {
      if s.refreshPending.Some? {
        if s.refreshPending.value.WillGrant? {
          RequestBounded(AfterPending(s), q, false, out.Reissued());
        } else {
          ReauthenticateBounded(AfterPending(s), q, out, NetworkFailure(message));
        }
      } else {
        ReauthenticateBounded(s, q, out, NetworkFailure(message));
      }
    } else {
      assert Navigations([Navigate(LoginPage)]) == 1;
    }
    CountsAppend([Toast(message)], rest.effects);
  }

  lemma {:induction false} ReauthenticateBounded<T>(s: Session, q: Req, out: Outcomes<T>, failure: ApiResponse<T>)
    ensures var r := ReauthenticateSpec(s, q, out, failure);
      && Refreshes(r.effects) == (if Truthy(s.refreshToken) then 1 else 0)
      && Fetches(r.effects) <= 1
      && Navigations(r.effects) <= 1
    decreases true, 0
  {
    var refreshed := RefreshSpec(s, out.refresh);
    var s1 := refreshed.after.(refreshPending := None);
    assert Refreshes(refreshed.effects) == (if Truthy(s.refreshToken) then 1 else 0);
    assert Fetches(refreshed.effects) == 0 && Navigations(refreshed.effects) == 0;
    if refreshed.value {
      RequestBounded(s1, q, false, out.Reissued());
      CountsAppend(refreshed.effects, RequestSpec(s1, q, false, out.Reissued()).effects);
    } else {
      assert Navigations([Navigate(LoginPage)]) == 1;
      CountsAppend(refreshed.effects, [Navigate(LoginPage)]);
    }
  }

  /**
   * The in-memory tokens mirror the stored ones, and the two tokens are
   * present or absent together.
   */
  ghost predicate Consistent(s: Session)
  {
    && s.accessToken == GetItem(s.storage, AccessTokenKey)
    && s.refreshToken == GetItem(s.storage, RefreshTokenKey)
    && (s.accessToken.Some? <==> s.refreshToken.Some?)
  }

  /** A request keeps the session consistent and touches no storage key but the session's three. */
  lemma {:induction false} RequestKeepsSession<T>(s: Session, q: Req, retry: bool, out: Outcomes<T>)
    requires Consistent(s)
    ensures var r := RequestSpec(s, q, retry, out);
      Consistent(r.after) && AgreeOutside(r.after.storage, s.storage, SessionKeys)
    decreases retry, 2
  {
    if retry {
      match out.first
      case Response(status, json) =>
        if status == 401 {
          if s.refreshPending.Some? {
            if s.refreshPending.value.WillGrant? {
              RequestKeepsSession(AfterPending(s), q, false, out.Reissued());
            }
          } else {
            ReauthenticateKeepsSession(s, q, out, AuthenticationFailed());
          }
        }
      case Thrown(error) =>
        var message := ErrorMessage(error);
        if Contains(message, FailedToFetch) {
          if s.refreshPending.Some? {
            if s.refreshPending.value.WillGrant? {
              RequestKeepsSession(AfterPending(s), q, false, out.Reissued());
            } else {
              ReauthenticateKeepsSession(AfterPending(s), q, out, NetworkFailure(message));
            }
          } else {
            ReauthenticateKeepsSession(s, q, out, NetworkFailure(message));
          }
        }
    }
  }

  lemma {:induction false} ReauthenticateKeepsSession<T>(s: Session, q: Req, out: Outcomes<T>, failure: ApiResponse<T>)
    requires Consistent(s)
    ensures var r := ReauthenticateSpec(s, q, out, failure);
      Consistent(r.after) && AgreeOutside(r.after.storage, s.storage, SessionKeys)
    decreases true, 0
  {
    var refreshed := RefreshSpec(s, out.refresh);
    if refreshed.value {
      RequestKeepsSession(refreshed.after.(refreshPending := None), q, false, out.Reissued());
    }
  }

  /**
   * What a request comes to when its own fetch answered: anything but a 401
   * with `retry` goes straight to `handleResponse`; a 401 whose refresh fails
   * (a pending one, or the caller's own) gives `AuthenticationFailed`, a
   * cleared session with the refresh slot free, and a page load of the login
   * page.
   */
  lemma UnauthorizedOutcomes<T>(s: Session, q: Req, retry: bool, out: Outcomes<T>,
                                status: int, json: Option<ApiResponse<T>>)
    requires out.first == Response(status, json)
    ensures var r := RequestSpec(s, q, retry, out);
      && (!(status == 401 && retry) ==>
            r == Prefixed([Fetch(RequestCall(s, q))], HandleResponseSpec(s, json)))
      && (status == 401 && retry && s.refreshPending == Some(WillFail) ==>
            r == Step(Resolved(AuthenticationFailed()), ClearTokensSpec(s).(refreshPending := None),
                      [Fetch(RequestCall(s, q)), Navigate(LoginPage)]))
      && (status == 401 && retry && s.refreshPending.None? && !RefreshSpec(s, out.refresh).value ==>
            && r.value == Resolved(AuthenticationFailed())
            && r.after == ClearTokensSpec(s)
            && r.effects[|r.effects| - 1] == Navigate(LoginPage))
  {
  }

  /**
   * What a request comes to when its own fetch threw: the message (or
   * "Network error") is toasted after the fetch; unless it contains "Failed
   * to fetch" and `retry` is set, the answer is `NetworkFailure` with that
   * message and a page load of the login page, the session untouched.
   */
  lemma ThrownOutcomes<T>(s: Session, q: Req, retry: bool, out: Outcomes<T>, error: Option<string>)
    requires out.first == Thrown(error)
    ensures var r := RequestSpec(s, q, retry, out);
      var message := ErrorMessage(error);
      && |r.effects| >= 2 && r.effects[1] == Toast(message)
      && (!(Contains(message, FailedToFetch) && retry) ==>
            r == Step(Resolved(NetworkFailure(message)), s,
                      [Fetch(RequestCall(s, q)), Toast(message), Navigate(LoginPage)]))
  {
    assert RequestSpec(s, q, retry, out) == Prefixed([Fetch(RequestCall(s, q))], ThrownSpec(s, q, retry, out, error));
  }

  /**
   * A "Failed to fetch" with `retry` while another caller's refresh is
   * pending and fails: that refresh cleared the session, so the caller's own
   * refresh finds no token and fetches nothing; the answer is `NetworkFailure`
   * and the login page is loaded.
   */
  lemma ThrownAfterFailedSharedRefresh<T>(s: Session, q: Req, out: Outcomes<T>, error: Option<string>)
    requires out.first == Thrown(error) && Contains(ErrorMessage(error), FailedToFetch)
    requires s.refreshPending == Some(WillFail)
    ensures var message := ErrorMessage(error);
      RequestSpec(s, q, true, out) ==
        Step(Resolved(NetworkFailure(message)), ClearTokensSpec(s).(refreshPending := None),
             [Fetch(RequestCall(s, q)), Toast(message), Navigate(LoginPage)])
  {
    var message := ErrorMessage(error);
    var cleared := AfterPending(s);
    assert cleared == ClearTokensSpec(s).(refreshPending := None);
    assert ClearTokensSpec(cleared).storage == ClearTokensSpec(s).storage;
    var tail := Prefixed([Toast(message)], ReauthenticateSpec(cleared, q, out, NetworkFailure(message)));
    assert ThrownSpec(s, q, true, out, error) == tail;
    assert RequestSpec(s, q, true, out) == Prefixed([Fetch(RequestCall(s, q))], tail);
  }

  /**
   * A "Failed to fetch" with `retry` and no pending refresh, whose own
   * refresh then fails: the answer is `NetworkFailure`, the session is
   * cleared with the slot free, and the login page is loaded last.
   */
  lemma ThrownOwnRefreshFails<T>(s: Session, q: Req, out: Outcomes<T>, error: Option<string>)
    requires out.first == Thrown(error) && Contains(ErrorMessage(error), FailedToFetch)
    requires s.refreshPending.None? && !RefreshSpec(s, out.refresh).value
    ensures var r := RequestSpec(s, q, true, out);
      && r.value == Resolved(NetworkFailure(ErrorMessage(error)))
      && r.after == ClearTokensSpec(s).(refreshPending := None)
      && r.effects[|r.effects| - 1] == Navigate(LoginPage)
  {
    var message := ErrorMessage(error);
    var tail := Prefixed([Toast(message)], ReauthenticateSpec(s, q, out, NetworkFailure(message)));
    assert ThrownSpec(s, q, true, out, error) == tail;
    assert RequestSpec(s, q, true, out) == Prefixed([Fetch(RequestCall(s, q))], tail);
  }

  /**
   * After a 401 that the caller's own refresh recovers, the re-issued fetch
   * carries the refreshed access token, and the answer is the re-issue's.
   */
  lemma RecoveredAfterUnauthorized<T>(s: Session, q: Req, out: Outcomes<T>, json: Option<ApiResponse<T>>)
    requires out.first == Response(401, json)
    requires s.refreshPending.None? && Truthy(s.refreshToken) && RefreshGranted(out.refresh)
    ensures var r := RequestSpec(s, q, true, out);
      && |r.effects| >= 3
      && r.effects[1] == RefreshFetch(RefreshCall(s.refreshToken.value))
      && r.effects[2].Fetch?
      && r.effects[2].call.headers == HeadersFor(Some(Granted(out.refresh).accessToken))
      && r.after.accessToken == Some(Granted(out.refresh).accessToken)
      && r.after.refreshToken == Some(Granted(out.refresh).refreshToken)
      && r.after.refreshPending.None?
      && r.value == (match out.reissue
                     case Response(_, rejson) => HandleResponseSpec(r.after, rejson).value
                     case Thrown(error) => Resolved(NetworkFailure(ErrorMessage(error))))
  {
  }

  /**
   * A request that met a 401 while another caller's refresh was in flight
   * and granted a pair: it refreshes nothing itself, re-issues its fetch with
   * the granted access token, and ends holding the granted pair with the
   * refresh slot free.
   */
  lemma RecoveredBySharedRefresh<T>(s: Session, q: Req, out: Outcomes<T>, json: Option<ApiResponse<T>>,
                                    granted: LoginResult)
    requires out.first == Response(401, json)
    requires s.refreshPending == Some(WillGrant(granted))
    ensures var r := RequestSpec(s, q, true, out);
      && |r.effects| >= 2
      && r.effects[1].Fetch?
      && r.effects[1].call.headers == HeadersFor(Some(granted.accessToken))
      && Refreshes(r.effects) == 0
      && r.after.accessToken == Some(granted.accessToken)
      && r.after.refreshToken == Some(granted.refreshToken)
      && r.after.refreshPending.None?
  {
    RequestBounded(s, q, true, out);
  }

  // ---------------------------------------------------------------------------
  // The client object

  class ApiService {
    var accessToken: Option<string>
    var refreshToken: Option<string>
    var refreshPending: Option<PendingRefresh>
    var storage: map<string, string>
    var effects: seq<Effect>

    function Snapshot(): Session
      reads this
    {
      Session(accessToken, refreshToken, refreshPending, storage)
    }

    /** The client picks up the tokens a previous page load left in storage. */
    constructor (stored: map<string, string>)
      ensures accessToken == GetItem(stored, AccessTokenKey)
      ensures refreshToken == GetItem(stored, RefreshTokenKey)
      ensures refreshPending.None? && storage == stored && effects == []
    {
      accessToken := GetItem(stored, AccessTokenKey);
      refreshToken := GetItem(stored, RefreshTokenKey);
      refreshPending := None;
      storage := stored;
      effects := [];
    }

    method SetTokens(newAccessToken: string, newRefreshToken: string, role: Option<string>)
      modifies this
      ensures Snapshot() == SetTokensSpec(old(Snapshot()), newAccessToken, newRefreshToken, role)
      ensures effects == old(effects)
    {
      accessToken := Some(newAccessToken);
      refreshToken := Some(newRefreshToken);
      storage := storage[AccessTokenKey := newAccessToken];
      storage := storage[RefreshTokenKey := newRefreshToken];
      if Truthy(role) {
        storage := storage[UserRoleKey := role.value];
      }
    }

    method ClearTokens()
      modifies this
      ensures Snapshot() == ClearTokensSpec(old(Snapshot()))
      ensures effects == old(effects)
    {
      accessToken := None;
      refreshToken := None;
      storage := storage - {AccessTokenKey};
      storage := storage - {RefreshTokenKey};
      storage := storage - {UserRoleKey};
      assert storage == old(storage) - SessionKeys;
    }

    method RefreshAccessToken(outcome: HttpOutcome<LoginResult>) returns (ok: bool)
      modifies this
      ensures var step := RefreshSpec(old(Snapshot()), outcome);
        ok == step.value && Snapshot() == step.after && effects == old(effects) + step.effects
    {
      if !Truthy(refreshToken) {
        ClearTokens();
        return false;
      }
      effects := effects + [RefreshFetch(RefreshCall(refreshToken.value))];
      match outcome {
        case Thrown(_) =>
          ClearTokens();
          ok := false;
        case Response(status, json) =>
          if status == 401 {
            ClearTokens();
            ok := false;
          } else if json.None? {
            ClearTokens();
            ok := false;
          } else if Succeeded(json.value) {
            var granted := json.value.result.value;
            SetTokens(granted.accessToken, granted.refreshToken, granted.role);
            ok := true;
          } else {
            ClearTokens();
            ok := false;
          }
      }
    }

    /**
     * `await this.refreshPromise` for a refresh another caller started: its
     * `setTokens` or `clearTokens` has run, and its starter has freed the slot.
     */
    method AwaitPending()
      requires refreshPending.Some?
      modifies this
      ensures Snapshot() == AfterPending(old(Snapshot()))
      ensures effects == old(effects)
    {
      match refreshPending.value {
        case WillGrant(granted) =>
          SetTokens(granted.accessToken, granted.refreshToken, granted.role);
        case WillFail =>
          ClearTokens();
      }
      refreshPending := None;
    }

    method GetHeaders() returns (headers: map<string, string>)
      ensures headers == HeadersFor(accessToken)
    {
      headers := map[ContentTypeHeader := JsonContentType];
      if Truthy(accessToken) {
        headers := headers[AuthorizationHeader := "Bearer " + accessToken.value];
      }
    }

    method HandleResponse<T>(json: Option<ApiResponse<T>>) returns (r: Settled<ApiResponse<T>>)
      modifies this`effects
      ensures var step := HandleResponseSpec(Snapshot(), json);
        r == step.value && effects == old(effects) + step.effects
    {
      if json.None? {
        return Rejected;
      }
      var data := json.value;
      if data.hasError && Truthy(data.errorMessage) {
        effects := effects + [Toast(data.errorMessage.value)];
      }
      r := Resolved(data);
    }

    method Request<T>(endpoint: string, httpMethod: string, body: Option<Body>, retry: bool, out: Outcomes<T>)
      returns (r: Settled<ApiResponse<T>>)
      modifies this
      ensures var step := RequestSpec(old(Snapshot()), Req(endpoint, httpMethod, body), retry, out);
        r == step.value && Snapshot() == step.after && effects == old(effects) + step.effects
      decreases retry, 2
    {
      ghost var s0 := Snapshot();
      ghost var q := Req(endpoint, httpMethod, body);
      var headers := GetHeaders();
      var attached: Option<Body> := None;
      if body.Some? && httpMethod != "GET" {
        attached := body;
      }
      var sent := [Fetch(FetchCall(ApiBaseUrl + endpoint, httpMethod, headers, attached))];
      assert sent == [Fetch(RequestCall(s0, q))];
      effects := effects + sent;
      match out.first {
        case Response(status, json) =>
          ghost var tail := RespondedSpec(s0, q, retry, out, status, json);
          assert RequestSpec(s0, q, retry, out) == Prefixed(sent, tail);
          r := Responded(endpoint, httpMethod, body, retry, out, status, json);
          AppendPrefixed(old(effects), sent, tail);
        case Thrown(error) =>
          ghost var tail := ThrownSpec(s0, q, retry, out, error);
          assert RequestSpec(s0, q, retry, out) == Prefixed(sent, tail);
          r := Caught(endpoint, httpMethod, body, retry, out, error);
          AppendPrefixed(old(effects), sent, tail);
      }
    }

    /** What `request` does once the fetch answered with `status` and a body decoding to `json`. */
    method Responded<T>(endpoint: string, httpMethod: string, body: Option<Body>, retry: bool, out: Outcomes<T>,
                        status: int, json: Option<ApiResponse<T>>)
      returns (r: Settled<ApiResponse<T>>)
      modifies this
      ensures var step := RespondedSpec(old(Snapshot()), Req(endpoint, httpMethod, body), retry, out, status, json);
        r == step.value && Snapshot() == step.after && effects == old(effects) + step.effects
      decreases retry, 1
    {
      if status == 401 && retry {
        if refreshPending.Some? {
          var granted := refreshPending.value.WillGrant?;
          AwaitPending();
          if granted {
            r := Request(endpoint, httpMethod, body, false, out.Reissued());
            return;
          }
          effects := effects + [Navigate(LoginPage)];
          return Resolved(AuthenticationFailed());
        }
        r := Reauthenticate(endpoint, httpMethod, body, out, AuthenticationFailed());
        return;
      }
      r := HandleResponse(json);
    }

    /** What the `catch` of `request` does with a thrown `error`. */
    method Caught<T>(endpoint: string, httpMethod: string, body: Option<Body>, retry: bool, out: Outcomes<T>,
                     error: Option<string>)
      returns (r: Settled<ApiResponse<T>>)
      modifies this
      ensures var step := ThrownSpec(old(Snapshot()), Req(endpoint, httpMethod, body), retry, out, error);
        r == step.value && Snapshot() == step.after && effects == old(effects) + step.effects
      decreases retry, 1
    {
      ghost var s0 := Snapshot();
      ghost var q := Req(endpoint, httpMethod, body);
      var message := ErrorMessage(error);
      effects := effects + [Toast(message)];
      if Contains(message, FailedToFetch) && retry {
        if refreshPending.Some? {
          var granted := refreshPending.value.WillGrant?;
          AwaitPending();
          if granted {
            ghost var tail := RequestSpec(AfterPending(s0), q, false, out.Reissued());
            assert ThrownSpec(s0, q, retry, out, error) == Prefixed([Toast(message)], tail);
            r := Request(endpoint, httpMethod, body, false, out.Reissued());
            AppendPrefixed(old(effects), [Toast(message)], tail);
            return;
          }
        }
        ghost var tail := ReauthenticateSpec(Snapshot(), q, out, NetworkFailure(message));
        assert ThrownSpec(s0, q, retry, out, error) == Prefixed([Toast(message)], tail);
        r := Reauthenticate(endpoint, httpMethod, body, out, NetworkFailure(message));
        AppendPrefixed(old(effects), [Toast(message)], tail);
        return;
      }
      effects := effects + [Navigate(LoginPage)];
      r := Resolved(NetworkFailure(message));
    }

    /**
     * The refresh-and-re-issue that `request` performs after a 401 or a
     * failed fetch, when no pending refresh has succeeded.
     */
    method Reauthenticate<T>(endpoint: string, httpMethod: string, body: Option<Body>, out: Outcomes<T>,
                             failure: ApiResponse<T>)
      returns (r: Settled<ApiResponse<T>>)
      modifies this
      ensures var step := ReauthenticateSpec(old(Snapshot()), Req(endpoint, httpMethod, body), out, failure);
        r == step.value && Snapshot() == step.after && effects == old(effects) + step.effects
      decreases true, 0
    {
      var refreshed := RefreshAccessToken(out.refresh);
      // the promise slot, set while the refresh is in flight, is released
      refreshPending := None;
      if refreshed {
        ghost var mid := effects;
        r := Request(endpoint, httpMethod, body, false, out.Reissued());
        assert effects == old(effects) + (mid[|old(effects)|..] + effects[|mid|..]);
        return;
      }
      effects := effects + [Navigate(LoginPage)];
      r := Resolved(failure);
    }

    method Get<T>(endpoint: string, out: Outcomes<T>) returns (r: Settled<ApiResponse<T>>)
      modifies this
      ensures var step := RequestSpec(old(Snapshot()), Req(endpoint, "GET", None), true, out);
        r == step.value && Snapshot() == step.after && effects == old(effects) + step.effects
    {
      r := Request(endpoint, "GET", None, true, out);
    }

    method Post<T>(endpoint: string, body: Body, out: Outcomes<T>) returns (r: Settled<ApiResponse<T>>)
      modifies this
      ensures var step := RequestSpec(old(Snapshot()), Req(endpoint, "POST", Some(body)), true, out);
        r == step.value && Snapshot() == step.after && effects == old(effects) + step.effects
    {
      r := Request(endpoint, "POST", Some(body), true, out);
    }

    method Put<T>(endpoint: string, body: Body, out: Outcomes<T>) returns (r: Settled<ApiResponse<T>>)
      modifies this
      ensures var step := RequestSpec(old(Snapshot()), Req(endpoint, "PUT", Some(body)), true, out);
        r == step.value && Snapshot() == step.after && effects == old(effects) + step.effects
    {
      r := Request(endpoint, "PUT", Some(body), true, out);
    }

    method Delete<T>(endpoint: string, out: Outcomes<T>) returns (r: Settled<ApiResponse<T>>)
      modifies this
      ensures var step := RequestSpec(old(Snapshot()), Req(endpoint, "DELETE", None), true, out);
        r == step.value && Snapshot() == step.after && effects == old(effects) + step.effects
    {
      r := Request(endpoint, "DELETE", None, true, out);
    }
  }
}
