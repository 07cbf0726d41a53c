/** The client object: the configuration, the cached token and its expiry, and the operations on them. */
module Zoho {
  import opened Wrappers
  import opened Http
  import opened Settings
  import opened TokenCache
  import opened Executor
  import opened Invoices

  class ZohoBooks {
    const config: ZohoConfig
    var accessToken: Option<string>
    var tokenExpiresAt: Option<int>

    /** A new client holds no token and no expiry. */
    constructor (config: ZohoConfig)
      ensures this.config == config
      ensures accessToken == None && tokenExpiresAt == None
      ensures forall now :: NeedsRefresh(CachedState(), now)
    {
      this.config := config;
      accessToken := None;
      tokenExpiresAt := None;
    }

    /** The token fields as a value. */
    function CachedState(): Cache
      reads this
    {
      Cache(accessToken, tokenExpiresAt)
    }

    /** Whether the cached token counts as expired at time `now`. */
    predicate TokenExpired(now: int)
      reads this
      ensures tokenExpiresAt.None? ==> TokenExpired(now)
      ensures tokenExpiresAt.Some? ==> (TokenExpired(now) <==> tokenExpiresAt.value <= now)
    {
      Expired(tokenExpiresAt, now)
    }

    /**
     * Renews the token with the refresh-token grant; `resp` is the reply
     * to the returned request, `now` the clock when it arrived.
     */
    method RefreshAccessToken(now: int, resp: AuthResponse) returns (request: TokenRequest, failure: Option<AuthFailure>)
      modifies this
      ensures request == RefreshRequest(config)
      ensures CachedState() == Refresh(old(CachedState()), now, resp).cache
      ensures failure == Refresh(old(CachedState()), now, resp).failure
    {
      request := RefreshRequest(config);
      failure := None;
      match resp
      case AuthTransportError =>
        failure := Some(PostFailed);
      case AuthReply(status, payload) =>
        if RaisesForStatus(status) {
          failure := Some(StatusRejected(status));
        } else if payload.None? {
          failure := Some(MalformedBody);
        } else if payload.value.accessToken.None? {
          failure := Some(MissingAccessToken);
        } else {
          accessToken := payload.value.accessToken;
          match payload.value.expiresIn
          case Absent =>
            tokenExpiresAt := Some(now + DefaultLifetime);
          case Seconds(n) =>
            tokenExpiresAt := Some(now + n);
          case NotSeconds =>
            failure := Some(BadExpiresIn);
        }
    }

    /**
     * The token property: refreshes when the cached token is falsy or
     * expired, then returns the cached token.
     */
    method AccessToken(now: int, resp: AuthResponse) returns (token: Result<string, AuthFailure>)
      modifies this
      ensures CachedState() == GetToken(old(CachedState()), now, resp).cache
      ensures token == GetToken(old(CachedState()), now, resp).token
    {
      if !Truthy(accessToken) || TokenExpired(now) {
        var _, failure := RefreshAccessToken(now, resp);
        if failure.Some? {
          return Failure(failure.value);
        }
      }
      return Success(accessToken.value);
    }

    /**
     * One run of the decorated request body: reads the token property,
     * builds the URL and headers, sends the request and reads the reply.
     */
    method AttemptCall(call: ApiCall, attempt: Attempt) returns (result: Result<Json, AttemptError>, requests: seq<ApiRequest>)
      modifies this
      ensures Step(CachedState(), result, requests) == AttemptOnce(config, old(CachedState()), call, attempt)
    {
      var token := AccessToken(attempt.now, attempt.auth);
      match token
      case Failure(e) =>
        result, requests := Failure(AuthFailed(e)), [];
      case Success(t) =>
        var request := BuildRequest(config, call, t);
        requests := [request];
        match Interpret(attempt.api)
        case Success(body) =>
          result := Success(body);
        case Failure(e) =>
          result := Failure(e);
    }

    /**
     * The authenticated request, retried: attempt `i` reads the clock and
     * the replies from `env(i)`; the loop stops at the first success or
     * after the third attempt.
     */
    method MakeRequest(call: ApiCall, env: nat -> Attempt) returns (outcome: Outcome, sent: seq<ApiRequest>, attempts: nat)
      modifies this
      ensures Run(CachedState(), outcome, sent, attempts) == Retry(config, old(CachedState()), call, env)
    {
      ghost var whole := Retry(config, CachedState(), call, env);
      sent, attempts := [], 0;
      while true
        invariant attempts < MaxAttempts
        invariant whole == After(sent, RetryFrom(config, CachedState(), call, env, attempts))
        decreases MaxAttempts - attempts
      {
        ghost var before := CachedState();
        var result, requests := AttemptCall(call, env(attempts));
        RetryStep(config, before, call, env, attempts, sent, Step(CachedState(), result, requests));
        sent := sent + requests;
        attempts := attempts + 1;
        if result.Success? {
          outcome := Returned(result.value);
          return;
        }
        if attempts == MaxAttempts {
          outcome := GaveUp(result.error);
          return;
        }
      }
    }

    /**
     * Lists the invoices, filtered by the truthy arguments; returns the
     * list the reply holds under `invoices`.
     */
    method GetInvoices(fromDate: Option<string>, toDate: Option<string>, status: Option<string>, env: nat -> Attempt)
      returns (invoices: Result<Json, InvoicesFailure>, sent: seq<ApiRequest>, attempts: nat)
      modifies this
      ensures var run := Retry(config, old(CachedState()), InvoiceCall(config, fromDate, toDate, status), env);
        CachedState() == run.cache && sent == run.sent && attempts == run.attempts
        && invoices == ListingResult(run.outcome)
    {
      var params := map["organization_id" := config.organizationId];
      if Truthy(fromDate) {
        params := params["date_start" := fromDate.value];
      }
      if Truthy(toDate) {
        params := params["date_end" := toDate.value];
      }
      if Truthy(status) {
        params := params["status" := status.value];
      }
      var outcome;
      outcome, sent, attempts := MakeRequest(ApiCall("GET", InvoicesEndpoint, Some(params), None), env);
      invoices := ListingResult(outcome);
    }
  }
}
