/**
 * A page session as a sequence of calls into the auth and request helpers,
 * sharing one token store and one script of replies.
 */
module Lifecycle {
  import opened Http
  import opened Tokens
  import M = ApiModel

  datatype Call =
    | LoginCall(email: string, password: string)
    | RegisterCall(email: string, password: string, name: string)
    | LogoutCall
    | RequestCall(endpoint: string, options: RequestInit)

  /** The store after some calls, the requests they issued, and the replies left over. */
  datatype Replay = Replay(store: Session, trace: seq<Request>, rest: seq<Reply>)

  /** How many scripted replies remain after `issued` calls of `fetch`. */
  function Remaining(script: seq<Reply>, issued: nat): nat {
    if issued <= |script| then |script| - issued else 0
  }

  /** One call. Each issued request consumes exactly one reply while the script lasts. */
  function Step(s: Session, call: Call, script: seq<Reply>): (r: Replay)
    ensures |r.trace| <= 3
    ensures |r.rest| == Remaining(script, |r.trace|)
    ensures Paired(s) ==> Paired(r.store)
  {
    match call
    case LoginCall(email, password) =>
      var o := M.Login(s, email, password, script);
      Replay(o.store, o.trace, o.rest)
    case RegisterCall(email, password, name) =>
      var o := M.Register(email, password, name, script);
      Replay(s, o.trace, o.rest)
    case LogoutCall => Replay(Empty, [], script)
    case RequestCall(endpoint, options) =>
      var o := M.ApiRequest(s, endpoint, options, script);
      Replay(o.store, o.trace, o.rest)
  }

  /** The calls in order, each seeing the store and the script the previous one left. */
  function Run(s: Session, calls: seq<Call>, script: seq<Reply>): Replay
    decreases |calls|
  {
    if calls == [] then Replay(s, [], script)
    else
      var first := Step(s, calls[0], script);
      var more := Run(first.store, calls[1..], first.rest);
      Replay(more.store, first.trace + more.trace, more.rest)
  }

  /** Tokens are written and removed in pairs, so a paired store stays paired. */
  lemma {:induction false} RunKeepsPaired(s: Session, calls: seq<Call>, script: seq<Reply>)
    requires Paired(s)
    ensures Paired(Run(s, calls, script).store)
    decreases |calls|
  {
    if calls != [] {
      var first := Step(s, calls[0], script);
      RunKeepsPaired(first.store, calls[1..], first.rest);
    }
  }

  /** No call issues more than three requests. */
  lemma {:induction false} RunTraceBound(s: Session, calls: seq<Call>, script: seq<Reply>)
    ensures |Run(s, calls, script).trace| <= 3 * |calls|
    decreases |calls|
  {
    if calls != [] {
      var first := Step(s, calls[0], script);
      RunTraceBound(first.store, calls[1..], first.rest);
    }
  }

  /** The trace records every call of `fetch`: each consumed exactly one reply while the script lasted. */
  lemma {:induction false} RunConsumesOneReplyPerRequest(s: Session, calls: seq<Call>, script: seq<Reply>)
    ensures var r := Run(s, calls, script); |r.rest| == Remaining(script, |r.trace|)
    decreases |calls|
  {
    if calls != [] {
      var first := Step(s, calls[0], script);
      RunConsumesOneReplyPerRequest(first.store, calls[1..], first.rest);
    }
  }
}
