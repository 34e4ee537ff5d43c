/** The two-slot token store kept in `localStorage`. */
module Tokens {
  import opened Wrappers
  import opened Js

  /** What the two storage keys hold; `None` is a key `getItem` reports as `null`. */
  datatype Session = Session(access: Option<string>, refresh: Option<string>)

  /** The store after `clearTokens`. */
  const Empty := Session(None, None)

  /** The client's test for a token: `null` and the empty string both count as absent. */
  predicate Present(token: Option<string>)
    ensures Present(token) <==> Truthy(if token.Some? then Some(JStr(token.value)) else None)
  {
    token.Some? && token.value != ""
  }

  /** Both tokens stored, or neither. */
  predicate Paired(s: Session) {
    s.access.Some? <==> s.refresh.Some?
  }

  /** `tokenManager`: its state is the two storage slots. */
  class TokenManager {
    var access: Option<string>
    var refresh: Option<string>

    function State(): Session
      reads this
    {
      Session(access, refresh)
    }

    /** A store holding what an earlier page load left behind. */
    constructor (saved: Session)
      ensures State() == saved
    {
      access, refresh := saved.access, saved.refresh;
    }

    method GetAccessToken() returns (token: Option<string>)
      ensures token == access
    {
      token := access;
    }

    method GetRefreshToken() returns (token: Option<string>)
      ensures token == refresh
    {
      token := refresh;
    }

    method SetTokens(newAccess: string, newRefresh: string)
      modifies this
      ensures State() == Session(Some(newAccess), Some(newRefresh))
    {
      access := Some(newAccess);
      refresh := Some(newRefresh);
    }

    method ClearTokens()
      modifies this
      ensures State() == Empty
    {
      access := None;
      refresh := None;
    }
  }

  /** The getters return exactly what `setTokens` stored. */
  method SetTokensThenGet(store: TokenManager, a: string, r: string) returns (gotAccess: Option<string>, gotRefresh: Option<string>)
    modifies store
    ensures gotAccess == Some(a) && gotRefresh == Some(r)
    ensures Paired(store.State())
  {
    store.SetTokens(a, r);
    gotAccess := store.GetAccessToken();
    gotRefresh := store.GetRefreshToken();
  }

  /** After `clearTokens` both getters report absence, and a second `clearTokens` changes nothing. */
  method ClearTokensTwice(store: TokenManager) returns (once: Session, gotAccess: Option<string>, gotRefresh: Option<string>)
    modifies store
    ensures once == Empty && store.State() == once
    ensures gotAccess == None && gotRefresh == None
  {
    store.ClearTokens();
    once := store.State();
    store.ClearTokens();
    gotAccess := store.GetAccessToken();
    gotRefresh := store.GetRefreshToken();
  }
}
