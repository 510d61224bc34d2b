/** The REST client (client/lib/api.ts). Every call goes through
    `authFetch`, which adds JSON and token headers; each wrapper maps the
    one response it gets to a value or a thrown error. `fetch` itself is
    abstracted: a call is described by the request it sends and the
    response (or network rejection) it is given. */
module Api {
  import opened Types
  import Decimal

  type Headers = map<string, string>

  datatype HttpMethod = Get | Post | Patch

  /** The JSON bodies the client sends. */
  datatype Body =
    | NoBody
    | StatusBody(status: bool)
    | PasswordBody(currentPassword: string, newPassword: string)
    | CredentialsBody(username: string, password: string)

  /** A request to `new URL(endpoint, baseUrl)`; the URL resolution is not
      part of this model, so the endpoint is kept as given. */
  datatype Request = Request(verb: HttpMethod, endpoint: string, headers: Headers, body: Body)

  /** What `fetch` settles with: a rejection (network failure) or a response
      with its status and its parsed JSON body. */
  datatype Response<T> = Rejected(error: string) | Responded(status: int, body: T) {
    /** `response.ok` */
    predicate Ok() {
      Responded? && 200 <= status <= 299
    }
  }

  /** A call: the request sent and what the wrapper returns or throws. */
  datatype Call<T> = Call(request: Request, result: Result<T>)

  const ContentType := "Content-Type"
  const Authorization := "Authorization"
  const Json := "application/json"

  function TokenHeader(token: string): string {
    "Token " + token
  }

  /** The headers `authFetch` sends: JSON content type and the token, with
      the caller's headers spread last so that they win on the same name. */
  function AuthHeaders(token: string, callerHeaders: Headers): (h: Headers)
    ensures h.Keys == {ContentType, Authorization} + callerHeaders.Keys
    ensures forall k :: k in callerHeaders ==> h[k] == callerHeaders[k]
    ensures Authorization !in callerHeaders ==> h[Authorization] == TokenHeader(token)
    ensures ContentType !in callerHeaders ==> h[ContentType] == Json
  {
    map[ContentType := Json, Authorization := TokenHeader(token)] + callerHeaders
  }

  /** authFetch (api.ts:4-22) */
  function AuthFetch(endpoint: string, token: string, verb: HttpMethod, callerHeaders: Headers, body: Body)
    : Request
  {
    Request(verb, endpoint, AuthHeaders(token, callerHeaders), body)
  }

  function BusEndpoint(busId: int): string {
    "/api/buses/" + Decimal.IntToString(busId) + "/"
  }

  /** The shared response rule of the single-resource fetches: the body when
      OK, null on 404, `failMessage` thrown on any other status, and a
      network rejection rethrown. */
  function ResourceResult(resp: Response<Bus>, failMessage: string): (r: Result<Option<Bus>>)
    ensures resp.Rejected? ==> r == Error(resp.error)
    ensures resp.Ok() ==> r == Value(Some(resp.body))
    ensures resp.Responded? && !resp.Ok() && resp.status == 404 ==> r == Value(None)
    ensures resp.Responded? && !resp.Ok() && resp.status != 404 ==> r == Error(failMessage)
    // 404 is the one failure turned into a value
    ensures r == Value(None) <==> (resp.Responded? && resp.status == 404)
    ensures r.Value? <==> (resp.Ok() || (resp.Responded? && resp.status == 404))
  {
    match resp
    case Rejected(e) => Error(e)
    case Responded(status, body) =>
      if resp.Ok() then Value(Some(body))
      else if status == 404 then Value(None)
      else Error(failMessage)
  }

  /** getStudentBus (api.ts:23-40) */
  function GetStudentBus(token: string, resp: Response<Bus>): (c: Call<Option<Bus>>)
    ensures c.request.endpoint == "/api/student/bus/" && c.request.verb == Get
    ensures c.request.headers == AuthHeaders(token, map[])
    ensures c.result == ResourceResult(resp, "Failed to fetch bus")
  {
    Call(AuthFetch("/api/student/bus/", token, Get, map[], NoBody), ResourceResult(resp, "Failed to fetch bus"))
  }

  /** getDriverBus (api.ts:41-58) */
  function GetDriverBus(token: string, resp: Response<Bus>): (c: Call<Option<Bus>>)
    ensures c.request.endpoint == "/api/driver/bus/" && c.request.verb == Get
    ensures c.request.headers == AuthHeaders(token, map[])
    ensures c.result == ResourceResult(resp, "Failed to fetch bus")
  {
    Call(AuthFetch("/api/driver/bus/", token, Get, map[], NoBody), ResourceResult(resp, "Failed to fetch bus"))
  }

  /** getBusDetails (api.ts:61-81) */
  function GetBusDetails(token: string, busId: int, resp: Response<Bus>): (c: Call<Option<Bus>>)
    ensures c.request.endpoint == BusEndpoint(busId) && c.request.verb == Get
    ensures c.request.headers == AuthHeaders(token, map[])
    ensures c.result == ResourceResult(resp, "Failed to fetch bus details")
  {
    Call(AuthFetch(BusEndpoint(busId), token, Get, map[], NoBody),
         ResourceResult(resp, "Failed to fetch bus details"))
  }

  /** Each bus id has its own detail endpoint. */
  lemma BusEndpointInjective(a: int, b: int)
    requires BusEndpoint(a) == BusEndpoint(b)
    ensures a == b
  {
    var p := "/api/buses/";
    var x, y := Decimal.IntToString(a), Decimal.IntToString(b);
    assert BusEndpoint(a) == p + (x + "/");
    assert BusEndpoint(b) == p + (y + "/");
    assert x + "/" == BusEndpoint(a)[|p|..] == y + "/";
    assert x == (x + "/")[..|x + "/"| - 1];
    assert y == (y + "/")[..|y + "/"| - 1];
    Decimal.IntToStringInjective(a, b);
  }

  /** updateBusActiveStatus (api.ts:86-107): PATCH `{status: isActive}` to the
      bus endpoint; any non-OK status throws, 404 included. */
  function StatusRequest(token: string, busId: int, isActive: bool): (r: Request)
    ensures r == Request(Patch, BusEndpoint(busId), r.headers, StatusBody(isActive))
    ensures r.headers.Keys == {ContentType, Authorization}
    ensures r.headers[Authorization] == TokenHeader(token)
    ensures r.headers[ContentType] == Json
  {
    AuthFetch(BusEndpoint(busId), token, Patch, map[ContentType := Json], StatusBody(isActive))
  }

  function UpdateBusActiveStatus(token: string, busId: int, isActive: bool, resp: Response<()>): (c: Call<()>)
    ensures c.request == StatusRequest(token, busId, isActive)
    ensures c.result.Value? <==> resp.Ok()
    ensures resp.Rejected? ==> c.result == Error(resp.error)
    ensures resp.Responded? && !resp.Ok() ==> c.result == Error("Failed to update bus status")
  {
    var request := StatusRequest(token, busId, isActive);
    match resp
    case Rejected(e) => Call(request, Error(e))
    case Responded(_, _) =>
      if resp.Ok() then Call(request, Value(())) else Call(request, Error("Failed to update bus status"))
  }

  /** The JSON error body of a failed password change. */
  datatype ErrorBody = ErrorBody(detail: Option<string>, error: Option<string>)

  /** `errorData.detail || errorData.error || "Failed to change password"`,
      where an unparsable body (`None`) is read as `{}`. */
  function PasswordErrorMessage(body: Option<ErrorBody>): (m: string)
    ensures m != ""
    ensures body.Some? && Truthy(body.value.detail) ==> m == body.value.detail.value
    ensures body.Some? && !Truthy(body.value.detail) && Truthy(body.value.error) ==> m == body.value.error.value
    ensures (body.None? || (!Truthy(body.value.detail) && !Truthy(body.value.error))) ==> m == "Failed to change password"
  {
    var data := body.GetOr(ErrorBody(None, None));
    if Truthy(data.detail) then data.detail.value
    else if Truthy(data.error) then data.error.value
    else "Failed to change password"
  }

  /** The change-password request: a POST of both passwords with the
      default headers. */
  function ChangePasswordRequest(token: string, currentPassword: string, newPassword: string): (r: Request)
    ensures r.verb == Post && r.endpoint == "/api/auth/change-password/"
    ensures r.headers == AuthHeaders(token, map[])
    ensures r.body == PasswordBody(currentPassword, newPassword)
  {
    AuthFetch("/api/auth/change-password/", token, Post, map[], PasswordBody(currentPassword, newPassword))
  }

  /** changePassword (api.ts:111-133) */
  function ChangePassword(token: string, currentPassword: string, newPassword: string,
                          resp: Response<Option<ErrorBody>>): (c: Call<()>)
    ensures c.request == ChangePasswordRequest(token, currentPassword, newPassword)
    ensures c.result.Value? <==> resp.Ok()
    ensures resp.Rejected? ==> c.result == Error(resp.error)
    ensures resp.Responded? && !resp.Ok() ==> c.result == Error(PasswordErrorMessage(resp.body))
  {
    var request := ChangePasswordRequest(token, currentPassword, newPassword);
    match resp
    case Rejected(e) => Call(request, Error(e))
    case Responded(_, body) =>
      if resp.Ok() then Call(request, Value(())) else Call(request, Error(PasswordErrorMessage(body)))
  }
}
