/** The request gateway `apiRequest` of lib/api.ts and the calls built on it.
    The network is a parameter: each call is handed the answer the server (or
    the transport) gives. */
module Api {
  import opened Wrappers
  import opened Storage

  /** The base URL when `NEXT_PUBLIC_API_URL` is unset or empty. */
  const DefaultBaseUrl := "http://localhost:8080/api"
  /** The message `apiRequest` uses when a failed response's body is not JSON. */
  const UnparsableBody := "Network error"
  /** The message it uses when the parsed body carries no message. */
  const NoMessage := "API request failed"

  /** `API_BASE_URL`: the environment's value unless it is absent or empty. */
  function BaseUrl(env: Option<string>): (url: string)
    ensures url != ""
    ensures Truthy(env) ==> url == env.value
    ensures !Truthy(env) ==> url == DefaultBaseUrl
  {
    OrElse(env.GetOr(""), DefaultBaseUrl)
  }

  datatype HttpMethod = GET | POST

  datatype User = User(id: int, email: string, name: string, role: string)

  datatype SignupData = SignupData(
    email: string, password: string,
    name: Option<string>, phoneNumber: Option<string>, managementCode: Option<string>)

  datatype LoginData = LoginData(email: string, password: string)

  /** The JSON bodies the client sends. */
  datatype Payload = SignupBody(signup: SignupData) | LoginBody(login: LoginData)

  /** The `options` argument of `apiRequest`; `{}` is `GET` with no headers. */
  datatype RequestInit = RequestInit(httpMethod: HttpMethod, headers: map<string, string>, body: Option<Payload>)

  /** What `fetch` is asked to send. */
  datatype Request = Request(
    url: string, httpMethod: HttpMethod, headers: map<string, string>,
    body: Option<Payload>, credentials: string)

  datatype AuthResponse = AuthResponse(success: bool, message: string, accessToken: Option<string>, user: Option<User>)

  datatype ApiResponse<+T> = ApiResponse(success: bool, message: string, data: Option<T>)

  /** The JSON body of a failed response, when it parses. */
  datatype ErrorBody = ErrorBody(message: Option<string>)

  /** What the network does with one request: a 2xx response with its parsed
      body, a non-2xx response with its body if that parses as JSON, or a
      rejected `fetch`. */
  datatype Network<+T> = Ok(body: T) | HttpErr(errorBody: Option<ErrorBody>) | Rejected(thrown: Thrown)

  const GetInit: RequestInit := RequestInit(GET, map[], None)
  const PostInit: RequestInit := RequestInit(POST, map[], None)

  /** The headers `apiRequest` sends: JSON content type, the caller's headers
      over it, and a bearer credential when one is stored. */
  function Headers(token: Option<string>, extra: map<string, string>): (h: map<string, string>)
    ensures h.Keys == {"Content-Type"} + extra.Keys + (if Truthy(token) then {"Authorization"} else {})
    ensures "Content-Type" !in extra ==> h["Content-Type"] == "application/json"
    ensures "Authorization" !in extra ==> ("Authorization" in h <==> Truthy(token))
    ensures Truthy(token) ==> h["Authorization"] == "Bearer " + token.value
    ensures forall k :: k in extra && k != "Authorization" ==> h[k] == extra[k]
    ensures "Authorization" in extra && !Truthy(token) ==> h["Authorization"] == extra["Authorization"]
  {
    var base := map["Content-Type" := "application/json"] + extra;
    if Truthy(token) then base["Authorization" := "Bearer " + token.value] else base
  }

  /** The request `apiRequest(endpoint, options)` sends from store `s`. */
  function Prepare(s: Store, env: Option<string>, endpoint: string, options: RequestInit): (r: Request)
    ensures r.url == BaseUrl(env) + endpoint && r.credentials == "include"
    ensures r.httpMethod == options.httpMethod && r.body == options.body
    ensures "Authorization" !in options.headers ==> ("Authorization" in r.headers <==> Truthy(Token(s)))
    ensures Truthy(Token(s)) ==>
              "Authorization" in r.headers && r.headers["Authorization"] == "Bearer " + Token(s).value
  {
    Request(BaseUrl(env) + endpoint, options.httpMethod, Headers(Token(s), options.headers), options.body, "include")
  }

  /** The message of the `Error` thrown for a non-2xx response. */
  function FailureMessage(parsed: Option<ErrorBody>): (m: string)
    ensures m != ""
    ensures parsed.None? ==> m == UnparsableBody
    ensures parsed.Some? && Truthy(parsed.value.message) ==> m == parsed.value.message.value
    ensures parsed.Some? && !Truthy(parsed.value.message) ==> m == NoMessage
  {
    var error := if parsed.Some? then parsed.value else ErrorBody(Some(UnparsableBody));
    OrElse(error.message.GetOr(""), NoMessage)
  }

  /** How `apiRequest` ends for a given network answer. */
  function Settle<T>(net: Network<T>): (out: Outcome<T>)
    ensures out.Returned? <==> net.Ok?
    ensures net.Ok? ==> out.value == net.body
    ensures net.HttpErr? ==> out.Threw? && out.thrown.ErrorObject? && out.thrown.message != ""
    ensures net.HttpErr? ==> out.thrown.message == FailureMessage(net.errorBody)
    ensures net.Rejected? ==> out == Threw(net.thrown)
  {
    match net
    case Ok(body) => Returned(body)
    case HttpErr(parsed) => Threw(ErrorObject(FailureMessage(parsed)))
    case Rejected(e) => Threw(e)
  }

  /** `apiRequest`. It reads the store and never writes it (no `modifies`). */
  method ApiRequest<T>(storage: TokenStorage, env: Option<string>, endpoint: string, options: RequestInit, net: Network<T>)
    returns (req: Request, out: Outcome<T>)
    ensures req == Prepare(storage.Model(), env, endpoint, options)
    ensures req.url == BaseUrl(env) + endpoint && req.credentials == "include"
    ensures "Authorization" !in options.headers ==>
              ("Authorization" in req.headers <==> Truthy(Token(storage.Model())))
    ensures out.Returned? <==> net.Ok?
    ensures net.Ok? ==> out.value == net.body
    ensures net.HttpErr? ==> out == Threw(ErrorObject(FailureMessage(net.errorBody)))
    ensures net.Rejected? ==> out == Threw(net.thrown)
  {
    var token := storage.Get();
    var headers := map["Content-Type" := "application/json"] + options.headers;
    if Truthy(token) {
      headers := headers["Authorization" := "Bearer " + token.value];
    }
    req := Request(BaseUrl(env) + endpoint, options.httpMethod, headers, options.body, "include");
    match net {
      case Ok(body) =>
        out := Returned(body);
      case HttpErr(parsed) =>
        out := Threw(ErrorObject(FailureMessage(parsed)));
      case Rejected(e) =>
        out := Threw(e);
    }
  }

  /** A response that hands out a credential: `success && accessToken`. */
  predicate Issues(r: AuthResponse) {
    r.success && Truthy(r.accessToken)
  }

  /** The store after `signup`, `login` or `refreshToken` ended with `out`. */
  function Persist(s: Store, out: Outcome<AuthResponse>): (r: Store)
    ensures r.hasWindow == s.hasWindow
    ensures !(out.Returned? && Issues(out.value)) ==> r == s
    ensures s.hasWindow && out.Returned? && Issues(out.value) ==> Token(r) == out.value.accessToken
  {
    if out.Returned? && Issues(out.value) then Put(s, out.value.accessToken.value) else s
  }

  /** A credential is written only by a returned response that reports
      success and carries that very credential; nothing else is touched. */
  lemma PersistGate(s: Store, out: Outcome<AuthResponse>)
    ensures Token(Persist(s, out)) != Token(s) ==>
              out.Returned? && out.value.success && Token(Persist(s, out)) == out.value.accessToken
    ensures Persist(s, out).items - {TokenKey} == s.items - {TokenKey}
    ensures s.hasWindow && out.Returned? && Issues(out.value) ==> Token(Persist(s, out)) == out.value.accessToken
  {
  }

  /** The shared shape of `signup`, `login` and `refreshToken`. */
  method Authenticate(storage: TokenStorage, env: Option<string>, endpoint: string, options: RequestInit, net: Network<AuthResponse>)
    returns (req: Request, out: Outcome<AuthResponse>)
    modifies storage
    ensures req == Prepare(old(storage.Model()), env, endpoint, options)
    ensures out == Settle(net)
    ensures storage.Model() == Persist(old(storage.Model()), out)
  {
    req, out := ApiRequest(storage, env, endpoint, options, net);
    if out.Returned? && Issues(out.value) {
      storage.Set(out.value.accessToken.value);
    }
  }

  method Signup(storage: TokenStorage, env: Option<string>, data: SignupData, net: Network<AuthResponse>)
    returns (req: Request, out: Outcome<AuthResponse>)
    modifies storage
    ensures req == Prepare(old(storage.Model()), env, "/auth/signup", RequestInit(POST, map[], Some(SignupBody(data))))
    ensures out == Settle(net)
    ensures storage.Model() == Persist(old(storage.Model()), out)
  {
    req, out := Authenticate(storage, env, "/auth/signup", RequestInit(POST, map[], Some(SignupBody(data))), net);
  }

  method Login(storage: TokenStorage, env: Option<string>, data: LoginData, net: Network<AuthResponse>)
    returns (req: Request, out: Outcome<AuthResponse>)
    modifies storage
    ensures req == Prepare(old(storage.Model()), env, "/auth/login", RequestInit(POST, map[], Some(LoginBody(data))))
    ensures out == Settle(net)
    ensures storage.Model() == Persist(old(storage.Model()), out)
  {
    req, out := Authenticate(storage, env, "/auth/login", RequestInit(POST, map[], Some(LoginBody(data))), net);
  }

  method RefreshToken(storage: TokenStorage, env: Option<string>, net: Network<AuthResponse>)
    returns (req: Request, out: Outcome<AuthResponse>)
    modifies storage
    ensures req == Prepare(old(storage.Model()), env, "/auth/refresh", PostInit)
    ensures out == Settle(net)
    ensures storage.Model() == Persist(old(storage.Model()), out)
  {
    req, out := Authenticate(storage, env, "/auth/refresh", PostInit, net);
  }

  /** The store after `logout` ended with `out`: the credential goes only
      when the request returned; a throw leaves it in place. */
  function AfterLogout<T>(s: Store, out: Outcome<T>): (r: Store)
    ensures out.Returned? ==> Token(r) == None
    ensures out.Threw? ==> r == s
    ensures r.hasWindow == s.hasWindow && r.items - {TokenKey} == s.items - {TokenKey}
  {
    if out.Returned? then Delete(s) else s
  }

  method Logout(storage: TokenStorage, env: Option<string>, net: Network<ApiResponse<()>>)
    returns (req: Request, out: Outcome<ApiResponse<()>>)
    modifies storage
    ensures req == Prepare(old(storage.Model()), env, "/auth/logout", PostInit)
    ensures out == Settle(net)
    ensures storage.Model() == AfterLogout(old(storage.Model()), out)
  {
    req, out := ApiRequest(storage, env, "/auth/logout", PostInit, net);
    if out.Returned? {
      storage.Remove();
    }
  }

  method GetCurrentUser(storage: TokenStorage, env: Option<string>, net: Network<ApiResponse<User>>)
    returns (req: Request, out: Outcome<ApiResponse<User>>)
    ensures req == Prepare(storage.Model(), env, "/auth/me", GetInit)
    ensures req.httpMethod == GET && req.body == None
    ensures out == Settle(net)
  {
    req, out := ApiRequest(storage, env, "/auth/me", GetInit, net);
  }

  method GetVideos<D>(storage: TokenStorage, env: Option<string>, net: Network<ApiResponse<D>>)
    returns (req: Request, out: Outcome<ApiResponse<D>>)
    ensures req == Prepare(storage.Model(), env, "/users/videos", GetInit)
    ensures out == Settle(net)
  {
    req, out := ApiRequest(storage, env, "/users/videos", GetInit, net);
  }

  method GetAnalysis<D>(storage: TokenStorage, env: Option<string>, net: Network<ApiResponse<D>>)
    returns (req: Request, out: Outcome<ApiResponse<D>>)
    ensures req == Prepare(storage.Model(), env, "/users/analysis", GetInit)
    ensures out == Settle(net)
  {
    req, out := ApiRequest(storage, env, "/users/analysis", GetInit, net);
  }
}
