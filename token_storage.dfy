/** The process-wide holder of the current access/refresh token pair. */
module Token {
  import opened Wrappers

  /**
   * The two static fields of the token store. One instance stands for the
   * class's static state; `None` is Java's `null`.
   */
  class TokenStorage {
    var accessToken: Option<string>
    var refreshToken: Option<string>

    /** Class initialisation: both static fields start out null. */
    constructor ()
      ensures accessToken == None && refreshToken == None
      ensures !HasValidToken()
    {
      accessToken := None;
      refreshToken := None;
    }

    method GetAccessToken() returns (token: Option<string>)
      ensures token == accessToken
    {
      token := accessToken;
    }

    /** Overwrites the access token, whatever it held; the refresh token is untouched. */
    method SetAccessToken(token: Option<string>)
      modifies this
      ensures accessToken == token
      ensures refreshToken == old(refreshToken)
    {
      accessToken := token;
    }

    method GetRefreshToken() returns (token: Option<string>)
      ensures token == refreshToken
    {
      token := refreshToken;
    }

    /** Overwrites the refresh token; the access token, and so liveness, are untouched. */
    method SetRefreshToken(token: Option<string>)
      modifies this
      ensures refreshToken == token
      ensures accessToken == old(accessToken)
      ensures HasValidToken() == old(HasValidToken())
    {
      refreshToken := token;
    }

    /** Liveness: an access token is present and is not the empty string. */
    predicate HasValidToken()
      reads this
    {
      accessToken.Some? && accessToken.value != ""
    }

    /** Forgets both tokens. */
    method ClearTokens()
      modifies this
      ensures accessToken == None && refreshToken == None
      ensures !HasValidToken()
    {
      accessToken := None;
      refreshToken := None;
    }
  }

  /**
   * A client of the store that can rely on nothing but the contracts above:
   * the initial state, an empty token that is stored but not live, last write
   * wins, repeated writes, and clearing.
   */
  method TokenLifecycle(a: string, r: string)
    requires a != ""
  {
    var store := new TokenStorage();
    assert !store.HasValidToken();

    store.SetAccessToken(Some(""));
    var t := store.GetAccessToken();
    assert t == Some("") && !store.HasValidToken();

    store.SetRefreshToken(Some(r));
    store.SetAccessToken(Some(a));
    var once := store.GetAccessToken();
    store.SetAccessToken(Some(a));
    var twice := store.GetAccessToken();
    var refresh := store.GetRefreshToken();
    assert once == twice == Some(a) && refresh == Some(r) && store.HasValidToken();

    store.ClearTokens();
    t := store.GetAccessToken();
    refresh := store.GetRefreshToken();
    assert t == None && refresh == None && !store.HasValidToken();
  }
}
