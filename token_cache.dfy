/**
 * The cached access token of the client and the OAuth 2.0 refresh-token
 * grant (section 6 of RFC 6749) that renews it. Times are whole seconds.
 */
module TokenCache {
  import opened Wrappers
  import opened Http
  import opened Settings

  /** Lifetime in seconds assumed when the token endpoint omits `expires_in`. */
  const DefaultLifetime: int := 3600

  /** The `expires_in` member of a token reply (section 5.1 of RFC 6749). */
  datatype ExpiresIn =
    | Absent             // the member is missing
    | Seconds(n: int)    // a whole number of seconds
    | NotSeconds         // present as a string, null, an array or an object
                         // (a boolean counts as Seconds(0) or Seconds(1))

  /** A token reply whose body decoded to a JSON object. */
  datatype TokenPayload = TokenPayload(accessToken: Option<string>, expiresIn: ExpiresIn)

  /** What the POST to the token endpoint produced. */
  datatype AuthResponse =
    | AuthTransportError                                  // the POST itself raised
    | AuthReply(status: int, payload: Option<TokenPayload>)  // None: the body is not a JSON object

  /** Why a refresh raised `ZohoAuthError`. */
  datatype AuthFailure =
    | PostFailed
    | StatusRejected(status: int)
    | MalformedBody
    | MissingAccessToken
    | BadExpiresIn

  /** The two optional fields that hold the cached token and its expiry. */
  datatype Cache = Cache(token: Option<string>, expiresAt: Option<int>)

  /** The request the refresh sends: a POST to `{auth_base_url}/token` with these query parameters. */
  datatype TokenRequest = TokenRequest(url: string, params: map<string, string>)

  /** The state after a refresh, and the failure it raised if any. */
  datatype Refreshed = Refreshed(cache: Cache, failure: Option<AuthFailure>)

  /** The state after reading the token property, and the token or the failure it raised. */
  datatype Fetched = Fetched(cache: Cache, token: Result<string, AuthFailure>)

  /** A token without expiry is expired; otherwise it expires at its expiry time. */
  predicate Expired(expiresAt: Option<int>, now: int)
    ensures Expired(expiresAt, now) <==> !(expiresAt.Some? && now < expiresAt.value)
  {
    expiresAt.None? || now >= expiresAt.value
  }

  /** The token property refreshes when the cached token is falsy or expired. */
  predicate NeedsRefresh(c: Cache, now: int)
  {
    !Truthy(c.token) || Expired(c.expiresAt, now)
  }

  /** Seconds a successful reply grants. */
  function Lifetime(e: ExpiresIn): int
    requires !e.NotSeconds?
  {
    if e.Seconds? then e.n else DefaultLifetime
  }

  /** A reply from which the refresh completes without raising. */
  predicate Granted(resp: AuthResponse)
  {
    && resp.AuthReply?
    && !RaisesForStatus(resp.status)
    && resp.payload.Some?
    && resp.payload.value.accessToken.Some?
    && !resp.payload.value.expiresIn.NotSeconds?
  }

  /** A reply that makes the refresh raise before it writes anything. */
  predicate FailsBeforeWrite(resp: AuthResponse)
  {
    || resp.AuthTransportError?
    || RaisesForStatus(resp.status)
    || resp.payload.None?
    || resp.payload.value.accessToken.None?
  }

  /** The refresh-token grant request built from the configuration. */
  function RefreshRequest(cfg: ZohoConfig): (r: TokenRequest)
    ensures r.url == cfg.authBaseUrl + "/token"
    ensures r.params.Keys == {"refresh_token", "client_id", "client_secret", "grant_type"}
    ensures r.params["grant_type"] == "refresh_token"
    ensures r.params["refresh_token"] == cfg.refreshToken
    ensures r.params["client_id"] == cfg.clientId && r.params["client_secret"] == cfg.clientSecret
  {
    TokenRequest(
      cfg.authBaseUrl + "/token",
      map["refresh_token" := cfg.refreshToken,
          "client_id" := cfg.clientId,
          "client_secret" := cfg.clientSecret,
          "grant_type" := "refresh_token"])
  }

  /**
   * The refresh of the cached token from the reply to RefreshRequest,
   * at time `now`. The token is written before the expiry is computed, so a
   * reply whose `expires_in` is not a number leaves the new token beside the
   * old expiry.
   */
  function Refresh(c: Cache, now: int, resp: AuthResponse): (r: Refreshed)
    ensures r.failure.None? <==> Granted(resp)
    ensures Granted(resp) ==>
      r.cache == Cache(resp.payload.value.accessToken, Some(now + Lifetime(resp.payload.value.expiresIn)))
    ensures FailsBeforeWrite(resp) ==> r.failure.Some? && r.cache == c
    ensures r.failure == Some(BadExpiresIn) <==> !Granted(resp) && !FailsBeforeWrite(resp)
    ensures r.failure == Some(BadExpiresIn) ==>
      r.cache == Cache(resp.payload.value.accessToken, c.expiresAt)
  {
    match resp
    case AuthTransportError => Refreshed(c, Some(PostFailed))
    case AuthReply(status, payload) =>
      if RaisesForStatus(status) then Refreshed(c, Some(StatusRejected(status)))
      else if payload.None? then Refreshed(c, Some(MalformedBody))
      else if payload.value.accessToken.None? then Refreshed(c, Some(MissingAccessToken))
      else
        var written := c.(token := payload.value.accessToken);
        match payload.value.expiresIn
        case Absent => Refreshed(written.(expiresAt := Some(now + DefaultLifetime)), None)
        case Seconds(n) => Refreshed(written.(expiresAt := Some(now + n)), None)
        case NotSeconds => Refreshed(written, Some(BadExpiresIn))
  }

  /**
   * Reading the token property at time `now`: the cached token when it is
   * truthy and unexpired, otherwise the token a refresh with reply `resp` stores.
   */
  function GetToken(c: Cache, now: int, resp: AuthResponse): (r: Fetched)
    ensures r.token.Success? ==> r.cache.token == Some(r.token.value)
  {
    if NeedsRefresh(c, now) then
      var refreshed := Refresh(c, now, resp);
      if refreshed.failure.Some? then Fetched(refreshed.cache, Failure(refreshed.failure.value))
      else Fetched(refreshed.cache, Success(refreshed.cache.token.value))
    else
      Fetched(c, Success(c.token.value))
  }

  /**
   * The token property returns the cached token and writes nothing when it
   * is truthy and unexpired; otherwise it refreshes, and it raises exactly
   * when that refresh raised. On success the cache holds the returned token.
   */
  lemma GetTokenCases(c: Cache, now: int, resp: AuthResponse)
    ensures !NeedsRefresh(c, now) ==> GetToken(c, now, resp) == Fetched(c, Success(c.token.value))
    ensures NeedsRefresh(c, now) ==> GetToken(c, now, resp).cache == Refresh(c, now, resp).cache
    ensures NeedsRefresh(c, now) ==> (GetToken(c, now, resp).token.Success? <==> Granted(resp))
    ensures var f := GetToken(c, now, resp);
      f.token.Success? ==> f.cache.token == Some(f.token.value)
    ensures var f := GetToken(c, now, resp);
      f.token.Failure? ==> NeedsRefresh(c, now) && Some(f.token.error) == Refresh(c, now, resp).failure
  {
  }

  /** Without a stored expiry the token counts as expired, whatever the token. */
  lemma NoExpiryIsExpired(token: Option<string>, now: int)
    ensures NeedsRefresh(Cache(token, None), now)
    ensures Expired(Cache(token, None).expiresAt, now)
  {
  }

  /** With an expiry stored, the token is expired from that instant on, and not before. */
  lemma ExpiredExactlyFrom(expiresAt: int, now: int)
    ensures Expired(Some(expiresAt), now) <==> expiresAt <= now
    ensures Expired(Some(now), now)
  {
  }

  /** Once expired, a cached token stays expired as time goes on. */
  lemma ExpiryIsPermanent(expiresAt: Option<int>, now: int, later: int)
    requires now <= later && Expired(expiresAt, now)
    ensures Expired(expiresAt, later)
  {
  }

  /** A granted refresh with a positive lifetime leaves a token that is not expired at that moment. */
  lemma GrantedTokenIsFresh(c: Cache, now: int, resp: AuthResponse)
    requires Granted(resp) && Lifetime(resp.payload.value.expiresIn) > 0
    ensures !Expired(Refresh(c, now, resp).cache.expiresAt, now)
    ensures Refresh(c, now, resp).cache.token == resp.payload.value.accessToken
  {
  }

  /**
   * A token obtained from the property is served again, with nothing
   * written, until its expiry, whatever the token endpoint would reply.
   */
  lemma TokenIsReusedUntilExpiry(c: Cache, now: int, resp: AuthResponse, later: int, resp2: AuthResponse)
    requires GetToken(c, now, resp).token.Success?
    requires GetToken(c, now, resp).token.value != ""
    requires !Expired(GetToken(c, now, resp).cache.expiresAt, later)
    ensures GetToken(GetToken(c, now, resp).cache, later, resp2)
         == Fetched(GetToken(c, now, resp).cache, GetToken(c, now, resp).token)
  {
  }

  /**
   * A reply with a usable token but a non-numeric `expires_in` makes the
   * refresh raise, yet the next read of the property before the old expiry
   * serves the new token without refreshing.
   */
  lemma PartialRefreshServesNewToken(c: Cache, now: int, resp: AuthResponse, t: string, later: int, resp2: AuthResponse)
    requires resp.AuthReply? && !RaisesForStatus(resp.status) && resp.payload.Some?
    requires resp.payload.value.accessToken == Some(t) && t != ""
    requires resp.payload.value.expiresIn.NotSeconds?
    requires c.expiresAt.Some? && later < c.expiresAt.value
    ensures Refresh(c, now, resp).failure == Some(BadExpiresIn)
    ensures GetToken(Refresh(c, now, resp).cache, later, resp2) == Fetched(Refresh(c, now, resp).cache, Success(t))
  {
  }
}
