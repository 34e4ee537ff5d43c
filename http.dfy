/**
 * The request descriptors the client hands to `fetch`, and `fetch` itself as an
 * oracle: each call consumes the next scripted reply.
 */
module Http {
  import opened Wrappers
  import opened Js

  /** A request body. Caller bodies are pre-serialised text; the client's own are JSON objects. */
  datatype Payload =
    | Text(text: string)                                          // a caller's `body`
    | RefreshBody(refresh: string)                                // `{ refresh }`
    | LoginBody(email: string, password: string)                  // `{ email, password }`
    | RegisterBody(email: string, password: string, name: string) // `{ email, password, name }`

  /**
   * The options bag passed to `fetch`. The field `verb` is `method`; absent means GET; absent
   * headers are the empty record.
   */
  datatype RequestInit = RequestInit(verb: Option<string>, headers: map<string, string>, body: Option<Payload>)

  /** One call of `fetch(url, init)`, as recorded in a trace. */
  datatype Request = Request(url: string, init: RequestInit)

  /** What one call of `fetch` settles to. A body of `None` is one `response.json()` cannot parse. */
  datatype Reply = Response(status: nat, body: Option<Json>) | NetworkFailure

  /** `response.ok`. */
  predicate IsOk(status: nat)
    ensures IsOk(status) ==> status != 401  // the 401 branch and the ok branch never overlap
  {
    200 <= status <= 299
  }

  datatype Fetched = Fetched(reply: Reply, rest: seq<Reply>)

  /** The next scripted reply; once the script is exhausted every call fails on the network. */
  function Fetch(script: seq<Reply>): (f: Fetched)
    ensures script != [] ==> f == Fetched(script[0], script[1..])
    ensures script == [] ==> f == Fetched(NetworkFailure, [])
  {
    if script == [] then Fetched(NetworkFailure, []) else Fetched(script[0], script[1..])
  }

  /** `response.json()`: the parsed body, or the SyntaxError it rejects with. */
  function ReadJson(body: Option<Json>): (r: Result<Json>)
    ensures r.Ok? <==> body.Some?
    ensures r.Ok? ==> r.value == body.value
    ensures r.Throw? ==> r.exc == BadJson
  {
    if body.Some? then Ok(body.value) else Throw(BadJson)
  }
}
