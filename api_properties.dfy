/** The client's promised behaviours, stated over concrete reply scripts. */
module ApiProperties {
  import opened Wrappers
  import opened Decimal
  import opened Js
  import opened Http
  import opened Tokens
  import opened ApiModel

  /** The generic error names the status in decimal, and the status can be read back out of it. */
  lemma ApiErrorCarriesStatus(status: nat)
    ensures |ApiError(status)| > 11 && ApiError(status)[..11] == "API Error: "
    ensures Canonical(ApiError(status)[11..]) && ParseInt(ApiError(status)[11..]) == Some(status as int)
  {
    assert ApiError(status)[11..] == IntToString(status);
    IntToStringRoundTrip(status);
  }

  /** A successful refresh stores the `access` string it was sent and keeps the refresh token. */
  lemma RefreshStoresNewAccess(s: Session, status: nat, fields: map<string, Json>, a: string, rest: seq<Reply>)
    requires Present(s.refresh) && IsOk(status)
    requires "access" in fields && fields["access"] == JStr(a)
    ensures var o := RefreshAccessToken(s, [Response(status, Some(JObj(fields)))] + rest);
            o.result == Ok(true) && o.store == Session(Some(a), s.refresh) && o.rest == rest
  {
    assert ([Response(status, Some(JObj(fields)))] + rest)[1..] == rest;
  }

  /** A 2xx refresh reply without `access` still counts as success; the store then holds "undefined". */
  lemma RefreshWithoutAccessStoresUndefined(s: Session, status: nat, fields: map<string, Json>, rest: seq<Reply>)
    requires Present(s.refresh) && IsOk(status) && "access" !in fields
    ensures var o := RefreshAccessToken(s, [Response(status, Some(JObj(fields)))] + rest);
            o.result == Ok(true) && o.store == Session(Some("undefined"), s.refresh)
  {
  }

  /** A 401, a successful refresh and a 2xx retry: one refresh, one retry, the retry's body. */
  lemma SingleRetry(s: Session, endpoint: string, options: RequestInit, first: Option<Json>,
                    refreshReply: Reply, retryStatus: nat, data: Json)
    requires Present(s.refresh) && RefreshAccepted(refreshReply) && IsOk(retryStatus)
    ensures var o := ApiRequest(s, endpoint, options, [Response(401, first), refreshReply, Response(retryStatus, Some(data))]);
            o.result == Ok(data) && |o.trace| == 3 && o.rest == []
            && o.trace[0].url == endpoint && o.trace[1] == RefreshRequest(s.refresh.value) && o.trace[2].url == endpoint
  {
    var script := [Response(401, first), refreshReply, Response(retryStatus, Some(data))];
    assert Fetch(script).rest == [refreshReply, Response(retryStatus, Some(data))];
  }

  /** A second 401 on the retry is a hard failure: no second refresh, no third attempt. */
  lemma NoRetryLoop(s: Session, endpoint: string, options: RequestInit, first: Option<Json>,
                    refreshReply: Reply, retryBody: Option<Json>, later: seq<Reply>)
    requires Present(s.refresh) && RefreshAccepted(refreshReply)
    ensures var o := ApiRequest(s, endpoint, options, [Response(401, first), refreshReply, Response(401, retryBody)] + later);
            o.result == Throw(Error("API Error: 401")) && |o.trace| == 3 && o.rest == later
  {
    var script := [Response(401, first), refreshReply, Response(401, retryBody)] + later;
    assert Fetch(script).rest == [refreshReply, Response(401, retryBody)] + later;
    assert Fetch(Fetch(script).rest).rest == [Response(401, retryBody)] + later;
    assert ApiError(401) == "API Error: 401" by {
      assert NatToString(4) == [DigitChar(4)] == "4";
      assert NatToString(40) == NatToString(4) + [DigitChar(0)] == "40";
      assert NatToString(401) == NatToString(40) + [DigitChar(1)] == "401";
    }
    var o := ApiRequest(s, endpoint, options, script);
    assert o.result == Throw(Error(ApiError(401)));
  }

  /** A 401 whose refresh is rejected: tokens cleared, session expired, nothing retried. */
  lemma FailedRefreshExpiresSession(s: Session, endpoint: string, options: RequestInit, first: Option<Json>,
                                    refreshStatus: nat, refreshBody: Option<Json>, later: seq<Reply>)
    requires Present(s.refresh) && !IsOk(refreshStatus)
    ensures var o := ApiRequest(s, endpoint, options, [Response(401, first), Response(refreshStatus, refreshBody)] + later);
            o.result == Throw(Error(SessionExpired)) && o.store == Empty && |o.trace| == 2 && o.rest == later
  {
    var script := [Response(401, first), Response(refreshStatus, refreshBody)] + later;
    assert Fetch(script).rest == [Response(refreshStatus, refreshBody)] + later;
  }

  /** A 401 with no usable refresh token: no refresh call, the store untouched, session expired. */
  lemma NoRefreshTokenExpiresSession(s: Session, endpoint: string, options: RequestInit, script: seq<Reply>)
    requires Unauthorized(Fetch(script).reply) && !Present(s.refresh)
    ensures var o := ApiRequest(s, endpoint, options, script);
            o.result == Throw(Error(SessionExpired)) && o.store == s && |o.trace| == 1
  {
  }

  /** On a non-ok, non-401 reply a truthy `message` wins; an unparsable body gives the generic error. */
  lemma ErrorMessagePrecedence(s: Session, endpoint: string, options: RequestInit, status: nat,
                               body: Option<Json>, rest: seq<Reply>)
    requires status != 401 && !IsOk(status)
    ensures var o := ApiRequest(s, endpoint, options, [Response(status, body)] + rest);
            o.store == s && |o.trace| == 1 && o.rest == rest
            && (body.Some? && body.value.JObj? && "message" in body.value.fields && Truthy(Some(body.value.fields["message"]))
                ==> o.result == Throw(Error(ToJsString(body.value.fields["message"]))))
            && (body.None? ==> o.result == Throw(Error(ApiError(status))))
            && (body.Some? && body != Some(JNull) && !Truthy(OptionalGet(body, "message"))
                ==> o.result == Throw(Error(ApiError(status))))
  {
    assert ([Response(status, body)] + rest)[1..] == rest;
  }

  /** Caller headers override the defaults on the first attempt; the retry forces the fresh token. */
  lemma AuthorizationPrecedence(token: Option<string>, caller: map<string, string>, newToken: string)
    requires Authorization in caller
    ensures InitialHeaders(token, caller)[Authorization] == caller[Authorization]
    ensures RetryHeaders(InitialHeaders(token, caller), Some(newToken))[Authorization] == Bearer(newToken)
  {
  }

  /** A login response carrying both tokens stores exactly that pair. */
  lemma LoginStoresIssuedPair(s: Session, email: string, password: string, status: nat,
                              a: string, r: string, rest: seq<Reply>)
    requires IsOk(status) && a != "" && r != ""
    ensures var data := JObj(map["token" := JObj(map["access" := JStr(a), "refresh" := JStr(r)])]);
            var o := Login(s, email, password, [Response(status, Some(data))] + rest);
            o.result == Ok(data) && o.store == Session(Some(a), Some(r))
  {
  }

  /** A login response whose token lacks `refresh` leaves the store as it was. */
  lemma LoginWithoutRefreshKeepsStore(s: Session, email: string, password: string, status: nat,
                                      token: map<string, Json>, rest: seq<Reply>)
    requires IsOk(status) && "refresh" !in token
    ensures var data := JObj(map["token" := JObj(token)]);
            var o := Login(s, email, password, [Response(status, Some(data))] + rest);
            o.result == Ok(data) && o.store == s
  {
  }

  /** A rejected login leaves the store as it was and reports the server's message or the fallback. */
  lemma RejectedLoginKeepsStore(s: Session, email: string, password: string, status: nat, body: Option<Json>,
                                rest: seq<Reply>)
    requires !IsOk(status)
    ensures var o := Login(s, email, password, [Response(status, body)] + rest);
            o.store == s
            && (body.None? ==> o.result == Throw(Error("Invalid credentials")))
  {
  }
}
