/**
 * The client as the source runs it: step by step against the mutable token
 * store, each awaited `fetch` consuming the next scripted reply. Refresh,
 * request, login and register are each proved to agree with their
 * counterpart in ApiModel; logout states the cleared store directly.
 */
module Api {
  import opened Wrappers
  import opened Js
  import opened Http
  import opened Tokens
  import M = ApiModel

  /** `refreshAccessToken()`. */
  method RefreshAccessToken(store: TokenManager, script: seq<Reply>)
    returns (refreshed: bool, trace: seq<Request>, rest: seq<Reply>)
    modifies store
    ensures M.RefreshAccessToken(old(store.State()), script) == M.Outcome(Ok(refreshed), store.State(), trace, rest)
  {
    var refreshToken := store.GetRefreshToken();
    if !Present(refreshToken) {
      return false, [], script;
    }
    trace := [M.RefreshRequest(refreshToken.value)];
    var f := Fetch(script);
    rest := f.rest;
    // The try block: a rejected fetch, a body that does not parse and a `null`
    // body all fall through to clearing the store.
    if f.reply.Response? && IsOk(f.reply.status) {
      var data := ReadJson(f.reply.body);
      if data.Ok? {
        var access := Get(data.value, "access");
        if access.Ok? {
          store.SetTokens(StorageString(access.value), refreshToken.value);
          return true, trace, rest;
        }
      }
    }
    store.ClearTokens();
    refreshed := false;
  }

  /** `apiRequest(endpoint, options)`. */
  method ApiRequest(store: TokenManager, endpoint: string, options: RequestInit, script: seq<Reply>)
    returns (result: Result<Json>, trace: seq<Request>, rest: seq<Reply>)
    modifies store
    ensures M.ApiRequest(old(store.State()), endpoint, options, script) == M.Outcome(result, store.State(), trace, rest)
  {
    var token := store.GetAccessToken();
    var headers := M.InitialHeaders(token, options.headers);
    var first := Request(endpoint, options.(headers := headers));
    trace := [first];
    var f := Fetch(script);
    rest := f.rest;
    if f.reply.NetworkFailure? {
      return Throw(FetchFailed), trace, rest;
    }
    if f.reply.status == 401 {
      var refreshed, refreshTrace;
      refreshed, refreshTrace, rest := RefreshAccessToken(store, rest);
      trace := trace + refreshTrace;
      if refreshed {
        var newToken := store.GetAccessToken();
        var retryHeaders := M.RetryHeaders(headers, newToken);
        trace := trace + [Request(endpoint, options.(headers := retryHeaders))];
        var g := Fetch(rest);
        rest := g.rest;
        if g.reply.NetworkFailure? {
          return Throw(FetchFailed), trace, rest;
        }
        if !IsOk(g.reply.status) {
          return Throw(Error(M.ApiError(g.reply.status))), trace, rest;
        }
        return ReadJson(g.reply.body), trace, rest;
      }
      return Throw(Error(M.SessionExpired)), trace, rest;
    }
    if !IsOk(f.reply.status) {
      return Throw(M.ErrorFromBody(f.reply.body, M.ApiError(f.reply.status))), trace, rest;
    }
    result := ReadJson(f.reply.body);
  }

  /** `authAPI.login(email, password)`. */
  method Login(store: TokenManager, email: string, password: string, script: seq<Reply>)
    returns (result: Result<Json>, trace: seq<Request>, rest: seq<Reply>)
    modifies store
    ensures M.Login(old(store.State()), email, password, script) == M.Outcome(result, store.State(), trace, rest)
  {
    trace := [M.LoginRequest(email, password)];
    var f := Fetch(script);
    rest := f.rest;
    if f.reply.NetworkFailure? {
      return Throw(FetchFailed), trace, rest;
    }
    if !IsOk(f.reply.status) {
      return Throw(M.ErrorFromBody(f.reply.body, M.InvalidCredentials)), trace, rest;
    }
    result := ReadJson(f.reply.body);
    if result.Throw? {
      return;
    }
    var token := Get(result.value, "token");
    if token.Throw? {
      return Throw(token.exc), trace, rest;
    }
    var access := OptionalGet(token.value, "access");
    var refresh := OptionalGet(token.value, "refresh");
    if Truthy(access) && Truthy(refresh) {
      store.SetTokens(StorageString(access), StorageString(refresh));
    }
  }

  /** `authAPI.register(email, password, name)`; the token store is not involved. */
  method Register(email: string, password: string, name: string, script: seq<Reply>)
    returns (result: Result<Json>, trace: seq<Request>, rest: seq<Reply>)
    ensures M.Register(email, password, name, script) == M.Exchange(result, trace, rest)
  {
    trace := [M.RegisterRequest(email, password, name)];
    var f := Fetch(script);
    rest := f.rest;
    if f.reply.NetworkFailure? {
      return Throw(FetchFailed), trace, rest;
    }
    if !IsOk(f.reply.status) {
      return Throw(M.ErrorFromBody(f.reply.body, M.RegistrationFailed)), trace, rest;
    }
    result := ReadJson(f.reply.body);
  }

  /** `authAPI.logout()`: no request, both tokens removed. */
  method Logout(store: TokenManager)
    modifies store
    ensures store.State() == Empty
  {
    store.ClearTokens();
  }
}
