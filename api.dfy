/**
 * The API client: a module-level bearer token mirrored in local storage, the request
 * builder `fetchAPI` (headers, URL, the error raised for a non-ok status), `login`, and
 * the table of endpoint wrappers. The network is a parameter: each call is given the
 * outcome `fetch` produced.
 */
module Api {
  import opened Wrappers
  import Js
  import Json
  import Browser

  const DefaultApiUrl := "http://localhost:5000/api"
  const TokenKey := "authToken"
  const ContentType := "Content-Type"
  const Authorization := "Authorization"
  const JsonMediaType := "application/json"

  /** `import.meta.env.VITE_API_URL || 'http://localhost:5000/api'`. */
  function ApiUrl(env: Option<string>): string {
    Js.OrMissing(env, DefaultApiUrl)
  }

  /** A plain header object: names are matched exactly, as object keys are. */
  type Headers = map<string, string>

  /** The fields of `RequestInit` the client reads or passes on. */
  datatype RequestInit = RequestInit(verb: Option<string>, headers: Headers, body: Option<string>)

  const NoOptions := RequestInit(None, map[], None)

  /** What is handed to `fetch`: a URL and `{ ...options, headers }`. An absent verb means GET. */
  datatype Request = Request(url: string, verb: Option<string>, headers: Headers, body: Option<string>)

  /** What `fetch` produced: a rejection, or a status with the body, None when it is not JSON. */
  datatype FetchResult = NetworkError | Response(status: int, body: Option<Json.Json>)

  /** Why a call was rejected. */
  datatype ApiError =
    | RequestFailed(message: string)  // the Error thrown for a non-ok status
    | PropertyOfNull                  // the body was JSON null and a property of it was read
    | InvalidJson                     // an ok response whose body is not JSON
    | NetworkFailure                  // fetch itself rejected

  datatype Outcome<T> = Ok(value: T) | Err(error: ApiError)

  /** `if (authToken)`: a token is sent only when present and non-empty. */
  predicate TokenHeld(token: Option<string>) {
    token.Some? && token.value != ""
  }

  /** "ok" in the sense of the Fetch Standard: a status in the range 200 to 299. */
  predicate IsOk(status: int) {
    200 <= status <= 299
  }

  /**
   * The header object: Content-Type first, then the caller's headers over it, then the
   * bearer credential of RFC 6750 (section 2.1) whenever a token is held.
   */
  function BuildHeaders(caller: Headers, token: Option<string>): (h: Headers)
    ensures h.Keys == caller.Keys + {ContentType} + (if TokenHeld(token) then {Authorization} else {})
    ensures ContentType != Authorization
    ensures h[ContentType] == if ContentType in caller then caller[ContentType] else JsonMediaType
    ensures TokenHeld(token) ==> h[Authorization] == "Bearer " + token.value
    ensures forall k :: k in caller && (k != Authorization || !TokenHeld(token)) ==> h[k] == caller[k]
  {
    var merged := map[ContentType := JsonMediaType] + caller;
    if TokenHeld(token) then merged[Authorization := "Bearer " + token.value] else merged
  }

  /** The request `fetchAPI(endpoint, options)` issues. */
  function BuildRequest(apiUrl: string, token: Option<string>, endpoint: string, options: RequestInit): Request {
    Request(apiUrl + endpoint, options.verb, BuildHeaders(options.headers, token), options.body)
  }

  /** The error thrown for a non-ok status, given the body as `response.json()` read it. */
  function ErrorFor(status: int, body: Option<Json.Json>): ApiError {
    match body
    case None => RequestFailed("Request failed")
    case Some(v) =>
      if v.JNull? then PropertyOfNull
      else
        var m := Json.Get(v, "message");
        if m.Some? && Json.Truthy(m.value) then RequestFailed(Json.ToJsString(m.value))
        else RequestFailed("HTTP " + Js.IntToString(status))
  }

  /** What `fetchAPI` resolves to, or rejects with, for one outcome of `fetch`. */
  function Interpret(r: FetchResult): Outcome<Json.Json> {
    match r
    case NetworkError => Err(NetworkFailure)
    case Response(status, body) =>
      if IsOk(status) then (if body.Some? then Ok(body.value) else Err(InvalidJson))
      else Err(ErrorFor(status, body))
  }

  /** The three ways the message of a non-ok response is chosen. */
  lemma ErrorMessageChoice(status: int, body: Option<Json.Json>)
    ensures body.None? ==> ErrorFor(status, body) == RequestFailed("Request failed")
    ensures body.Some? && body.value.JObj? && Json.Get(body.value, "message").Some?
            && Json.Get(body.value, "message").value.JStr?
            && Json.Get(body.value, "message").value.s != ""
            ==> ErrorFor(status, body) == RequestFailed(Json.Get(body.value, "message").value.s)
    ensures body.Some? && !body.value.JNull?
            && (Json.Get(body.value, "message").None? || !Json.Truthy(Json.Get(body.value, "message").value))
            ==> ErrorFor(status, body) == RequestFailed("HTTP " + Js.IntToString(status))
    ensures ErrorFor(status, body).RequestFailed? <==> !(body.Some? && body.value.JNull?)
  {
  }

  /** The client succeeds exactly on an ok status with a JSON body, and returns that body unchanged. */
  lemma InterpretOk(r: FetchResult)
    ensures Interpret(r).Ok? <==> r.Response? && IsOk(r.status) && r.body.Some?
    ensures Interpret(r).Ok? ==> Interpret(r).value == r.body.value
  {
  }

  /** A 404 carrying `{"message":"Not found"}` fails with exactly that message; a 500 without a JSON body fails with the fallback. */
  lemma ErrorExamples()
    ensures Interpret(Response(404, Some(Json.JObj([("message", Json.JStr("Not found"))]))))
         == Err(RequestFailed("Not found"))
    ensures Interpret(Response(500, None)) == Err(RequestFailed("Request failed"))
    ensures Interpret(Response(500, Some(Json.JObj([])))) == Err(RequestFailed("HTTP 500"))
  {
    assert Js.NatToString(5) == "5";
    assert Js.NatToString(50) == "50";
    assert Js.IntToString(500) == "500";
    assert Json.Get(Json.JObj([]), "message").None?;
    assert ErrorFor(500, Some(Json.JObj([]))) == RequestFailed("HTTP " + "500");
  }

  // ---------------------------------------------------------------------------
  // The endpoint table
  // ---------------------------------------------------------------------------

  /** One exported wrapper with its arguments. */
  datatype Endpoint =
    | Authenticate(email: string, password: string)
    | GetDashboardStats
    | GetBookings
    | UpdateBookingStatus(id: int, status: string)
    | GetPackages
    | CreatePackage(data: Json.Json)
    | UpdatePackage(id: int, data: Json.Json)
    | DeletePackage(id: int)
    | GetEnquiries
    | UpdateEnquiryStatus(id: int, status: string)
    | GetPublicDestinations
    | SubmitBooking(data: Json.Json)
    | SubmitEnquiry(data: Json.Json)

  /** The endpoint string each wrapper passes to `fetchAPI`. */
  function Path(e: Endpoint): string {
    match e
    case Authenticate(_, _) => "/auth/login"
    case GetDashboardStats => "/admin/dashboard"
    case GetBookings => "/admin/bookings"
    case UpdateBookingStatus(id, _) => "/admin/bookings/" + Js.IntToString(id)
    case GetPackages => "/admin/destinations"
    case CreatePackage(_) => "/admin/destinations"
    case UpdatePackage(id, _) => "/admin/destinations/" + Js.IntToString(id)
    case DeletePackage(id) => "/admin/destinations/" + Js.IntToString(id)
    case GetEnquiries => "/admin/enquiries"
    case UpdateEnquiryStatus(id, _) => "/admin/enquiries/" + Js.IntToString(id)
    case GetPublicDestinations => "/public/destinations"
    case SubmitBooking(_) => "/public/bookings"
    case SubmitEnquiry(_) => "/public/enquiries"
  }

  function StatusBody(status: string): string {
    Json.Stringify(Json.JObj([("status", Json.JStr(status))]))
  }

  /** The options each wrapper passes to `fetchAPI`; none of them sets headers. */
  function Init(e: Endpoint): RequestInit {
    match e
    case Authenticate(email, password) =>
      RequestInit(Some("POST"), map[], Some(Json.Stringify(Json.Pair("email", email, "password", password))))
    case UpdateBookingStatus(_, status) => RequestInit(Some("PUT"), map[], Some(StatusBody(status)))
    case CreatePackage(data) => RequestInit(Some("POST"), map[], Some(Json.Stringify(data)))
    case UpdatePackage(_, data) => RequestInit(Some("PUT"), map[], Some(Json.Stringify(data)))
    case DeletePackage(_) => RequestInit(Some("DELETE"), map[], None)
    case UpdateEnquiryStatus(_, status) => RequestInit(Some("PUT"), map[], Some(StatusBody(status)))
    case SubmitBooking(data) => RequestInit(Some("POST"), map[], Some(Json.Stringify(data)))
    case SubmitEnquiry(data) => RequestInit(Some("POST"), map[], Some(Json.Stringify(data)))
    case _ => NoOptions
  }

  /** The id a wrapper addresses, for the wrappers that take one. */
  function IdOf(e: Endpoint): Option<int> {
    match e
    case UpdateBookingStatus(id, _) => Some(id)
    case UpdatePackage(id, _) => Some(id)
    case DeletePackage(id) => Some(id)
    case UpdateEnquiryStatus(id, _) => Some(id)
    case _ => None
  }

  /** The collection a wrapper addresses. */
  function Collection(e: Endpoint): string {
    match e
    case UpdateBookingStatus(_, _) => "/admin/bookings"
    case UpdatePackage(_, _) => "/admin/destinations"
    case DeletePackage(_) => "/admin/destinations"
    case UpdateEnquiryStatus(_, _) => "/admin/enquiries"
    case _ => Path(e)
  }

  /** Id-taking wrappers append `/<id>` to their collection; the others use the collection path alone. */
  lemma PathShape(e: Endpoint)
    ensures IdOf(e).Some? ==> Path(e) == Collection(e) + "/" + Js.IntToString(IdOf(e).value)
    ensures IdOf(e).None? ==> Path(e) == Collection(e)
  {
  }

  /** Wrappers without options are GETs without a body; a body is sent exactly by the POST and PUT wrappers. */
  lemma MethodAndBody(e: Endpoint)
    ensures Init(e).headers == map[]
    ensures Init(e).verb.None? ==> Init(e).body.None?
    ensures Init(e).body.Some? <==> Init(e).verb in {Some("POST"), Some("PUT")}
    ensures Init(e).verb == Some("DELETE") <==> e.DeletePackage?
  {
  }

  /** The path of an id-taking wrapper determines its collection and its id. */
  lemma PathDeterminesId(e1: Endpoint, e2: Endpoint)
    requires IdOf(e1).Some? && IdOf(e2).Some? && Path(e1) == Path(e2)
    ensures Collection(e1) == Collection(e2) && IdOf(e1) == IdOf(e2)
  {
    PathShape(e1);
    PathShape(e2);
    var c1, c2 := Collection(e1), Collection(e2);
    var s1, s2 := Js.IntToString(IdOf(e1).value), Js.IntToString(IdOf(e2).value);
    assert Path(e1)[7] == c1[7] && Path(e2)[7] == c2[7];
    assert c1 == c2;
    assert s1 == Path(e1)[|c1| + 1..] && s2 == Path(e2)[|c2| + 1..];
    Js.IntToStringInjective(IdOf(e1).value, IdOf(e2).value);
  }

  // ---------------------------------------------------------------------------
  // The client and its token
  // ---------------------------------------------------------------------------

  /** The token carried by a login response: its `token` member when that is a string. */
  function TokenOf(data: Json.Json): Option<string> {
    var t := Json.Get(data, "token");
    if t.Some? && t.value.JStr? then Some(t.value.s) else None
  }

  /** What `login` resolves to for a given outcome of its request. */
  function LoginOutcome(r: Outcome<Json.Json>): Outcome<Json.Json> {
    if r.Ok? && r.value.JNull? then Err(PropertyOfNull) else r
  }

  class ApiClient {
    /** The module-level `authToken`. */
    var authToken: Option<string>
    const apiUrl: string
    const storage: Browser.LocalStorage

    /** Module load: the token starts as the stored one. */
    constructor (storage: Browser.LocalStorage, env: Option<string>)
      ensures this.storage == storage && apiUrl == ApiUrl(env)
      ensures authToken == storage.GetItem(TokenKey)
    {
      this.storage := storage;
      apiUrl := ApiUrl(env);
      authToken := storage.GetItem(TokenKey);
    }

    /** `setAuthToken`: the token in memory, and in storage exactly when it is non-empty. */
    method SetAuthToken(token: Option<string>)
      modifies this`authToken, storage
      ensures authToken == token
      ensures TokenHeld(token) ==> storage.items == old(storage.items)[TokenKey := token.value]
      ensures !TokenHeld(token) ==> storage.items == old(storage.items) - {TokenKey}
    {
      authToken := token;
      if token.Some? && token.value != "" {
        storage.SetItem(TokenKey, token.value);
      } else {
        storage.RemoveItem(TokenKey);
      }
    }

    /** `fetchAPI(endpoint, options)`: the request sent, and what the call resolves to. */
    method FetchApi(endpoint: string, options: RequestInit, response: FetchResult)
      returns (request: Request, result: Outcome<Json.Json>)
      ensures request == BuildRequest(apiUrl, authToken, endpoint, options)
      ensures result == Interpret(response)
    {
      var headers := BuildHeaders(options.headers, authToken);
      request := Request(apiUrl + endpoint, options.verb, headers, options.body);
      match response
      case NetworkError =>
        result := Err(NetworkFailure);
      case Response(status, body) =>
        if !IsOk(status) {
          result := Err(ErrorFor(status, body));
        } else if body.None? {
          result := Err(InvalidJson);
        } else {
          result := Ok(body.value);
        }
    }

    /** One endpoint wrapper: its request, and the response payload passed back unmodified. */
    method Call(e: Endpoint, response: FetchResult) returns (request: Request, result: Outcome<Json.Json>)
      requires !e.Authenticate?
      ensures request == BuildRequest(apiUrl, authToken, Path(e), Init(e))
      ensures result == Interpret(response)
    {
      request, result := FetchApi(Path(e), Init(e), response);
    }

    /**
     * `login`: POSTs the credentials; only a successful, non-null response replaces the
     * token (with the response's `token` member); every failure leaves it as it was.
     */
    method Login(email: string, password: string, response: FetchResult)
      returns (request: Request, result: Outcome<Json.Json>)
      modifies this`authToken, storage
      ensures request == BuildRequest(apiUrl, old(authToken), "/auth/login", Init(Authenticate(email, password)))
      ensures result == LoginOutcome(Interpret(response))
      ensures result.Ok? ==> authToken == TokenOf(result.value)
      ensures result.Ok? && TokenHeld(TokenOf(result.value)) ==>
                storage.items == old(storage.items)[TokenKey := TokenOf(result.value).value]
      ensures result.Ok? && !TokenHeld(TokenOf(result.value)) ==>
                storage.items == old(storage.items) - {TokenKey}
      ensures result.Err? ==> authToken == old(authToken) && storage.items == old(storage.items)
    {
      var data;
      request, data := FetchApi("/auth/login", Init(Authenticate(email, password)), response);
      if data.Ok? && data.value.JNull? {
        result := Err(PropertyOfNull);
      } else if data.Ok? {
        SetAuthToken(TokenOf(data.value));
        result := data;
      } else {
        result := data;
      }
    }
  }
}
