/**
 * The authenticated request client as functions of the stored tokens and the
 * scripted replies: each returns how the call settles, the store afterwards,
 * the requests it issued, and the replies it left unconsumed.
 */
module ApiModel {
  import opened Wrappers
  import opened Decimal
  import opened Js
  import opened Http
  import opened Tokens
  import Endpoints

  datatype Outcome<T> = Outcome(result: Result<T>, store: Session, trace: seq<Request>, rest: seq<Reply>)

  /** A call that does not touch the token store. */
  datatype Exchange<T> = Exchange(result: Result<T>, trace: seq<Request>, rest: seq<Reply>)

  const ContentType := "Content-Type"
  const Authorization := "Authorization"
  const JsonHeaders := map[ContentType := "application/json"]

  const SessionExpired := "Session expired. Please login again."
  const InvalidCredentials := "Invalid credentials"
  const RegistrationFailed := "Registration failed"

  /** `API Error: ${status}`. */
  function ApiError(status: nat): (m: string)
    ensures |m| > 11 && m[..11] == "API Error: "
  {
    "API Error: " + IntToString(status)
  }

  function Bearer(token: string): string {
    "Bearer " + token
  }

  /** `${t}` for what `getItem` returned. */
  function Interpolate(t: Option<string>): string {
    if t.Some? then t.value else "null"
  }

  /**
   * The first attempt's headers: the JSON content type, then the bearer token
   * when one is present, then the caller's headers, each overriding the last.
   */
  function InitialHeaders(token: Option<string>, caller: map<string, string>): (h: map<string, string>)
    ensures forall k :: k in h <==> k == ContentType || (k == Authorization && Present(token)) || k in caller
    ensures forall k :: k in caller ==> h[k] == caller[k]
    ensures ContentType !in caller ==> h[ContentType] == "application/json"
    ensures Authorization !in caller && Present(token) ==> h[Authorization] == Bearer(token.value)
  {
    var auth := if Present(token) then map[Authorization := Bearer(token.value)] else map[];
    JsonHeaders + auth + caller
  }

  /** The retry's headers: the first attempt's, with the re-read token forced over them. */
  function RetryHeaders(headers: map<string, string>, token: Option<string>): (h: map<string, string>)
    ensures h.Keys == headers.Keys + {Authorization}
    ensures h[Authorization] == Bearer(Interpolate(token))
    ensures forall k :: k in headers && k != Authorization ==> h[k] == headers[k]
  {
    headers[Authorization := Bearer(Interpolate(token))]
  }

  /**
   * The error a non-ok response is turned into: the body's `message` when it
   * is truthy, else `fallback`; an unparsable body reads as `{}`, a `null` one
   * makes the property read throw.
   */
  function ErrorFromBody(body: Option<Json>, fallback: string): (e: Thrown)
    ensures e.Error? || e == NullProperty
    ensures e == NullProperty <==> body == Some(JNull)
    ensures body.None? ==> e == Error(fallback)
    ensures body.Some? && body.value.JObj? && Truthy(OptionalGet(body, "message")) ==>
              e == Error(ToJsString(body.value.fields["message"]))
    ensures body.Some? && body.value.JObj? && !Truthy(OptionalGet(body, "message")) ==> e == Error(fallback)
    ensures body.Some? && !body.value.JObj? && !body.value.JNull? ==> e == Error(fallback)
  {
    var data := if body.Some? then body.value else JObj(map[]);
    match Get(data, "message")
    case Throw(exc) => exc
    case Ok(message) => if Truthy(message) then Error(ToJsString(message.value)) else Error(fallback)
  }

  // ---------------------------------------------------------------- refresh

  function RefreshRequest(refresh: string): Request {
    Request(Endpoints.TokenRefresh, RequestInit(Some("POST"), JsonHeaders, Some(RefreshBody(refresh))))
  }

  /** The refresh endpoint accepted the token and sent a body whose properties can be read. */
  predicate RefreshAccepted(reply: Reply)
    ensures RefreshAccepted(reply) <==>
              reply.Response? && IsOk(reply.status) && ReadJson(reply.body).Ok?
              && Get(ReadJson(reply.body).value, "access").Ok?
  {
    reply.Response? && IsOk(reply.status) && reply.body.Some? && !reply.body.value.JNull?
  }

  /** `refreshAccessToken()`. */
  function RefreshAccessToken(s: Session, script: seq<Reply>): (o: Outcome<bool>)
    ensures o.result.Ok?
    ensures !Present(s.refresh) ==> o == Outcome(Ok(false), s, [], script)
    ensures Present(s.refresh) ==> o.trace == [RefreshRequest(s.refresh.value)] && o.rest == Fetch(script).rest
    ensures o.result.value <==> Present(s.refresh) && RefreshAccepted(Fetch(script).reply)
    ensures o.result.value ==>
              o.store == Session(Some(StorageString(OptionalGet(Fetch(script).reply.body, "access"))), s.refresh)
    ensures Present(s.refresh) && !o.result.value ==> o.store == Empty
    ensures Paired(s) ==> Paired(o.store)
  {
    if !Present(s.refresh) then Outcome(Ok(false), s, [], script)
    else
      var trace := [RefreshRequest(s.refresh.value)];
      var f := Fetch(script);
      var cleared := Outcome(Ok(false), Empty, trace, f.rest);
      match f.reply
      case NetworkFailure => cleared
      case Response(status, body) =>
        if !IsOk(status) then cleared
        else
          match ReadJson(body)
          case Throw(_) => cleared
          case Ok(data) =>
            match Get(data, "access")
            case Throw(_) => cleared
            case Ok(access) => Outcome(Ok(true), Session(Some(StorageString(access)), s.refresh), trace, f.rest)
  }

  // ------------------------------------------------------------- apiRequest

  /** The first attempt of `apiRequest(endpoint, options)` with access token `token`. */
  function FirstRequest(token: Option<string>, endpoint: string, options: RequestInit): Request {
    Request(endpoint, options.(headers := InitialHeaders(token, options.headers)))
  }

  /** The retry, issued with the token re-read after a successful refresh. */
  function RetryRequest(first: Request, token: Option<string>): Request {
    Request(first.url, first.init.(headers := RetryHeaders(first.init.headers, token)))
  }

  /** The first attempt came back 401 Unauthorized. */
  predicate Unauthorized(reply: Reply) {
    reply.Response? && reply.status == 401
  }

  /** `apiRequest(endpoint, options)`. */
  function ApiRequest(s: Session, endpoint: string, options: RequestInit, script: seq<Reply>): (o: Outcome<Json>)
    ensures 1 <= |o.trace| <= 3
    ensures o.trace[0] == FirstRequest(s.access, endpoint, options)
    ensures |o.trace| >= 2 <==> Unauthorized(Fetch(script).reply) && Present(s.refresh)
    ensures |o.trace| >= 2 ==> o.trace[1] == RefreshRequest(s.refresh.value)
    ensures |o.trace| == 3 <==>
              Unauthorized(Fetch(script).reply) && RefreshAccessToken(s, Fetch(script).rest).result == Ok(true)
    ensures |o.trace| == 3 ==>
              o.store.access.Some? && o.trace[2] == RetryRequest(o.trace[0], o.store.access)
    ensures Unauthorized(Fetch(script).reply) && RefreshAccessToken(s, Fetch(script).rest).result == Ok(false) ==>
              o.result == Throw(Error(SessionExpired))
    ensures !Unauthorized(Fetch(script).reply) ==> o.store == s
    ensures Fetch(script).reply.NetworkFailure? ==>
              o == Outcome(Throw(FetchFailed), s, [FirstRequest(s.access, endpoint, options)], Fetch(script).rest)
    ensures var first := Fetch(script).reply;
            first.Response? && first.status != 401 ==>
              |o.trace| == 1 && o.rest == Fetch(script).rest
              && o.result == if IsOk(first.status) then ReadJson(first.body)
                             else Throw(ErrorFromBody(first.body, ApiError(first.status)))
    ensures var r := RefreshAccessToken(s, Fetch(script).rest);
            Unauthorized(Fetch(script).reply) ==>
              o.store == r.store && (r.result == Ok(false) ==> o.rest == r.rest && o.trace == [o.trace[0]] + r.trace)
    ensures var g := Fetch(RefreshAccessToken(s, Fetch(script).rest).rest);
            |o.trace| == 3 ==>
              o.rest == g.rest
              && o.result == if g.reply.NetworkFailure? then Throw(FetchFailed)
                             else if !IsOk(g.reply.status) then Throw(Error(ApiError(g.reply.status)))
                             else ReadJson(g.reply.body)
    ensures Paired(s) ==> Paired(o.store)
  {
    var first := FirstRequest(s.access, endpoint, options);
    var f := Fetch(script);
    match f.reply
    case NetworkFailure => Outcome(Throw(FetchFailed), s, [first], f.rest)
    case Response(status, body) =>
      if status == 401 then
        var r := RefreshAccessToken(s, f.rest);
        if r.result.value then
          var retry := RetryRequest(first, r.store.access);
          var g := Fetch(r.rest);
          var trace := [first] + r.trace + [retry];
          match g.reply
          case NetworkFailure => Outcome(Throw(FetchFailed), r.store, trace, g.rest)
          case Response(retryStatus, retryBody) =>
            if !IsOk(retryStatus) then Outcome(Throw(Error(ApiError(retryStatus))), r.store, trace, g.rest)
            else Outcome(ReadJson(retryBody), r.store, trace, g.rest)
        else Outcome(Throw(Error(SessionExpired)), r.store, [first] + r.trace, r.rest)
      else if !IsOk(status) then Outcome(Throw(ErrorFromBody(body, ApiError(status))), s, [first], f.rest)
      else Outcome(ReadJson(body), s, [first], f.rest)
  }

  // ------------------------------------------------------------- auth calls

  function LoginRequest(email: string, password: string): Request {
    Request(Endpoints.Login, RequestInit(Some("POST"), JsonHeaders, Some(LoginBody(email, password))))
  }

  function RegisterRequest(email: string, password: string, name: string): Request {
    Request(Endpoints.Register, RequestInit(Some("POST"), JsonHeaders, Some(RegisterBody(email, password, name))))
  }

  /** The pair `data.token.access`, `data.token.refresh` when both are truthy. */
  predicate IssuesTokens(data: Json)
    ensures IssuesTokens(data) <==>
              data.JObj? && "token" in data.fields && data.fields["token"].JObj?
              && "access" in data.fields["token"].fields && Truthy(Some(data.fields["token"].fields["access"]))
              && "refresh" in data.fields["token"].fields && Truthy(Some(data.fields["token"].fields["refresh"]))
  {
    var token := if data.JObj? && "token" in data.fields then Some(data.fields["token"]) else None;
    Truthy(OptionalGet(token, "access")) && Truthy(OptionalGet(token, "refresh"))
  }

  /** `authAPI.login(email, password)`. */
  function Login(s: Session, email: string, password: string, script: seq<Reply>): (o: Outcome<Json>)
    ensures o.trace == [LoginRequest(email, password)] && o.rest == Fetch(script).rest
    ensures o.store != s ==> o.result.Ok? && IssuesTokens(o.result.value)
    ensures o.result.Ok? && IssuesTokens(o.result.value) ==>
              var token := o.result.value.fields["token"];
              o.store == Session(Some(ToJsString(token.fields["access"])), Some(ToJsString(token.fields["refresh"])))
    ensures o.result.Ok? <==> Fetch(script).reply.Response? && IsOk(Fetch(script).reply.status)
                              && Fetch(script).reply.body.Some? && !Fetch(script).reply.body.value.JNull?
    ensures o.result.Ok? ==> Some(o.result.value) == Fetch(script).reply.body
    ensures Fetch(script).reply.Response? && !IsOk(Fetch(script).reply.status) ==>
              o.result == Throw(ErrorFromBody(Fetch(script).reply.body, InvalidCredentials))
    ensures Fetch(script).reply.NetworkFailure? ==> o.result == Throw(FetchFailed)
    ensures Fetch(script).reply.Response? && IsOk(Fetch(script).reply.status) ==>
              (Fetch(script).reply.body.None? ==> o.result == Throw(BadJson))
              && (Fetch(script).reply.body == Some(JNull) ==> o.result == Throw(NullProperty))
    ensures Paired(s) ==> Paired(o.store)
  {
    var trace := [LoginRequest(email, password)];
    var f := Fetch(script);
    match f.reply
    case NetworkFailure => Outcome(Throw(FetchFailed), s, trace, f.rest)
    case Response(status, body) =>
      if !IsOk(status) then Outcome(Throw(ErrorFromBody(body, InvalidCredentials)), s, trace, f.rest)
      else
        match ReadJson(body)
        case Throw(exc) => Outcome(Throw(exc), s, trace, f.rest)
        case Ok(data) =>
          match Get(data, "token")
          case Throw(exc) => Outcome(Throw(exc), s, trace, f.rest)
          case Ok(token) =>
            var access := OptionalGet(token, "access");
            var refresh := OptionalGet(token, "refresh");
            var store := if Truthy(access) && Truthy(refresh)
                         then Session(Some(StorageString(access)), Some(StorageString(refresh)))
                         else s;
            Outcome(Ok(data), store, trace, f.rest)
  }

  /** `authAPI.register(email, password, name)`. */
  function Register(email: string, password: string, name: string, script: seq<Reply>): (o: Exchange<Json>)
    ensures o.trace == [RegisterRequest(email, password, name)] && o.rest == Fetch(script).rest
    ensures o.result.Ok? <==> Fetch(script).reply.Response? && IsOk(Fetch(script).reply.status)
                              && Fetch(script).reply.body.Some?
    ensures o.result.Ok? ==> Some(o.result.value) == Fetch(script).reply.body
    ensures Fetch(script).reply.Response? && !IsOk(Fetch(script).reply.status) ==>
              o.result == Throw(ErrorFromBody(Fetch(script).reply.body, RegistrationFailed))
    ensures Fetch(script).reply.NetworkFailure? ==> o.result == Throw(FetchFailed)
    ensures Fetch(script).reply.Response? && IsOk(Fetch(script).reply.status) && Fetch(script).reply.body.None? ==>
              o.result == Throw(BadJson)
  {
    var trace := [RegisterRequest(email, password, name)];
    var f := Fetch(script);
    match f.reply
    case NetworkFailure => Exchange(Throw(FetchFailed), trace, f.rest)
    case Response(status, body) =>
      if !IsOk(status) then Exchange(Throw(ErrorFromBody(body, RegistrationFailed)), trace, f.rest)
      else Exchange(ReadJson(body), trace, f.rest)
  }
}
