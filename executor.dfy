/**
 * The authenticated request wrapper: every attempt reads the token
 * property, builds the URL and the bearer header (section 2.1 of RFC 6750),
 * sends the request and reads the reply; a failed attempt is retried until
 * three attempts have been made.
 */
module Executor {
  import opened Wrappers
  import opened Http
  import opened Settings
  import opened TokenCache

  /** The retry policy stops after this many attempts. */
  const MaxAttempts: nat := 3

  /** Bounds of the exponential wait between attempts, in seconds. */
  const MinWait: int := 4
  const MaxWait: int := 10

  /** A call of the wrapper: HTTP method (verb), endpoint, optional query parameters and optional JSON body. */
  datatype ApiCall = ApiCall(verb: string, endpoint: string, params: Option<map<string, string>>, data: Option<Json>)

  /** The arguments the wrapper passes to the HTTP library: method, URL, its own headers, parameters and JSON body. */
  datatype ApiRequest = ApiRequest(
    verb: string,
    url: string,
    headers: map<string, string>,
    params: Option<map<string, string>>,
    body: Option<Json>)

  /** What sending a request produced. */
  datatype ApiResponse =
    | ApiTransportError                          // the transport raised a `RequestException`
    | ApiOtherError                              // the call raised an exception that is not a `RequestException`
    | ApiReply(status: int, body: Option<Json>)  // None: the body is not JSON

  /** The `RequestException` failures, the only ones translated into `ZohoAPIError`. */
  datatype RequestFailure = TransportFailed | HttpError(status: int) | InvalidJson

  /**
   * Why one attempt failed: the token could not be obtained (`ZohoAuthError`),
   * the request failed with a `RequestException` (`ZohoAPIError`), or the
   * call raised some other exception, which propagates untranslated.
   */
  datatype AttemptError =
    | AuthFailed(authCause: AuthFailure)
    | ApiFailed(requestCause: RequestFailure)
    | OtherFailed

  /** What the outside world supplies to one attempt: the clock, the token endpoint's reply, the API's reply. */
  datatype Attempt = Attempt(now: int, auth: AuthResponse, api: ApiResponse)

  /** The end of a retried call: the decoded body, or the error of the last of the attempts. */
  datatype Outcome = Returned(body: Json) | GaveUp(last: AttemptError)

  /** The whole of a retried call: final cache, outcome, requests sent, attempts made. */
  datatype Run = Run(cache: Cache, outcome: Outcome, sent: seq<ApiRequest>, attempts: nat)

  /** One attempt: the cache afterwards, its result, and the request it sent (none when the token failed). */
  datatype Step = Step(cache: Cache, result: Result<Json, AttemptError>, sent: seq<ApiRequest>)

  /** A configured wait kept within the policy's bounds. */
  function ClampWait(w: int): (r: int)
    ensures MinWait <= r <= MaxWait
    ensures MinWait <= w <= MaxWait ==> r == w
    ensures w < MinWait ==> r == MinWait
    ensures MaxWait < w ==> r == MaxWait
  {
    if w < MinWait then MinWait else if w > MaxWait then MaxWait else w
  }

  /** The request sent for `call` with bearer token `token`. */
  function BuildRequest(cfg: ZohoConfig, call: ApiCall, token: string): (r: ApiRequest)
    ensures r.url == cfg.apiBaseUrl + "/" + call.endpoint
    ensures r.headers.Keys == {"Authorization", "Content-Type"}
    ensures r.headers["Authorization"] == "Bearer " + token
    ensures r.headers["Content-Type"] == "application/json"
    ensures r.verb == call.verb && r.params == call.params && r.body == call.data
  {
    ApiRequest(
      call.verb,
      cfg.apiBaseUrl + "/" + call.endpoint,
      map["Authorization" := "Bearer " + token, "Content-Type" := "application/json"],
      call.params,
      call.data)
  }

  /** A request that `call` sends under some bearer token. */
  ghost predicate SentFor(cfg: ZohoConfig, call: ApiCall, req: ApiRequest)
  {
    exists token :: req == BuildRequest(cfg, call, token)
  }

  /**
   * The reply read as `raise_for_status` followed by JSON decoding does;
   * request failures are translated, any other exception is not.
   */
  function Interpret(resp: ApiResponse): (r: Result<Json, AttemptError>)
    ensures r.Success? <==> resp.ApiReply? && !RaisesForStatus(resp.status) && resp.body.Some?
    ensures r.Success? ==> r.value == resp.body.value
    ensures resp.ApiReply? && RaisesForStatus(resp.status) ==> r == Failure(ApiFailed(HttpError(resp.status)))
    ensures r.Failure? ==> !r.error.AuthFailed?
    ensures r.Failure? ==> (r.error.ApiFailed? <==> !resp.ApiOtherError?)
  {
    match resp
    case ApiTransportError => Failure(ApiFailed(TransportFailed))
    case ApiOtherError => Failure(OtherFailed)
    case ApiReply(status, body) =>
      if RaisesForStatus(status) then Failure(ApiFailed(HttpError(status)))
      else if body.None? then Failure(ApiFailed(InvalidJson))
      else Success(body.value)
  }

  /** One attempt of `call` from cache `c`. */
  function AttemptOnce(cfg: ZohoConfig, c: Cache, call: ApiCall, a: Attempt): (s: Step)
    ensures |s.sent| <= 1
    ensures s.result.Success? ==> |s.sent| == 1
  {
    var f := GetToken(c, a.now, a.auth);
    match f.token
    case Failure(e) => Step(f.cache, Failure(AuthFailed(e)), [])
    case Success(token) =>
      var req := BuildRequest(cfg, call, token);
      match Interpret(a.api)
      case Failure(e) => Step(f.cache, Failure(e), [req])
      case Success(body) => Step(f.cache, Success(body), [req])
  }

  /**
   * An attempt whose token read raises sends nothing and fails with that
   * failure; otherwise it sends the one request built with the token, and
   * it succeeds exactly when the reply is a success, returning its body.
   */
  lemma AttemptOnceCases(cfg: ZohoConfig, c: Cache, call: ApiCall, a: Attempt)
    ensures var f, s := GetToken(c, a.now, a.auth), AttemptOnce(cfg, c, call, a);
      s.cache == f.cache
      && (f.token.Failure? ==> s.sent == [] && s.result == Failure(AuthFailed(f.token.error)))
      && (f.token.Success? ==> s.sent == [BuildRequest(cfg, call, f.token.value)])
    ensures var s := AttemptOnce(cfg, c, call, a);
      s.result.Success? <==> GetToken(c, a.now, a.auth).token.Success? && Interpret(a.api).Success?
    ensures var s := AttemptOnce(cfg, c, call, a);
      s.result.Success? ==> s.result.value == Interpret(a.api).value
    ensures var f, s := GetToken(c, a.now, a.auth), AttemptOnce(cfg, c, call, a);
      f.token.Success? && Interpret(a.api).Failure? ==> s.result == Failure(Interpret(a.api).error)
    ensures var f, s := GetToken(c, a.now, a.auth), AttemptOnce(cfg, c, call, a);
      (s.result.Failure? && s.result.error.ApiFailed?)
        <==> f.token.Success? && !a.api.ApiOtherError? && Interpret(a.api).Failure?
    ensures var f, s := GetToken(c, a.now, a.auth), AttemptOnce(cfg, c, call, a);
      s.result == Failure(OtherFailed) <==> f.token.Success? && a.api.ApiOtherError?
  {
  }

  /** `run` with `earlier` sent before its own requests. */
  function After(earlier: seq<ApiRequest>, run: Run): Run
  {
    run.(sent := earlier + run.sent)
  }

  /** Attempts `i`, `i` + 1, ... of `call` from cache `c`, until one succeeds or the third has failed. */
  function RetryFrom(cfg: ZohoConfig, c: Cache, call: ApiCall, env: nat -> Attempt, i: nat): (r: Run)
    requires i < MaxAttempts
    ensures i < r.attempts <= MaxAttempts
    ensures |r.sent| <= r.attempts - i
    ensures r.outcome.GaveUp? ==> r.attempts == MaxAttempts
    decreases MaxAttempts - i
  {
    var step := AttemptOnce(cfg, c, call, env(i));
    match step.result
    case Success(body) => Run(step.cache, Returned(body), step.sent, i + 1)
    case Failure(e) =>
      if i + 1 == MaxAttempts then Run(step.cache, GaveUp(e), step.sent, i + 1)
      else After(step.sent, RetryFrom(cfg, step.cache, call, env, i + 1))
  }

  /**
   * One attempt of the retry loop: what is left of the whole call after
   * attempt `i`, which ran from cache `c` and ended in step `s`.
   */
  lemma RetryStep(cfg: ZohoConfig, c: Cache, call: ApiCall, env: nat -> Attempt, i: nat,
                  earlier: seq<ApiRequest>, s: Step)
    requires i < MaxAttempts
    requires s == AttemptOnce(cfg, c, call, env(i))
    ensures s.result.Success? ==>
      After(earlier, RetryFrom(cfg, c, call, env, i)) == Run(s.cache, Returned(s.result.value), earlier + s.sent, i + 1)
    ensures s.result.Failure? && i + 1 == MaxAttempts ==>
      After(earlier, RetryFrom(cfg, c, call, env, i)) == Run(s.cache, GaveUp(s.result.error), earlier + s.sent, i + 1)
    ensures s.result.Failure? && i + 1 < MaxAttempts ==>
      After(earlier, RetryFrom(cfg, c, call, env, i)) == After(earlier + s.sent, RetryFrom(cfg, s.cache, call, env, i + 1))
  {
    if s.result.Failure? && i + 1 < MaxAttempts {
      var rest := RetryFrom(cfg, s.cache, call, env, i + 1);
      assert earlier + (s.sent + rest.sent) == (earlier + s.sent) + rest.sent;
    }
  }

  /** The whole retried call, starting from the first attempt. */
  function Retry(cfg: ZohoConfig, c: Cache, call: ApiCall, env: nat -> Attempt): (r: Run)
    ensures 1 <= r.attempts <= MaxAttempts
    ensures |r.sent| <= r.attempts
    ensures r.outcome.GaveUp? ==> r.attempts == MaxAttempts
  {
    RetryFrom(cfg, c, call, env, 0)
  }

  /** Every request a retried call sends targets `api_base_url/endpoint` and carries a bearer token. */
  lemma {:induction false} RetrySendsOnlyCall(cfg: ZohoConfig, c: Cache, call: ApiCall, env: nat -> Attempt, i: nat)
    requires i < MaxAttempts
    ensures forall req <- RetryFrom(cfg, c, call, env, i).sent :: SentFor(cfg, call, req)
    decreases MaxAttempts - i
  {
    var step := AttemptOnce(cfg, c, call, env(i));
    var f := GetToken(c, env(i).now, env(i).auth);
    if f.token.Success? {
      assert step.sent[0] == BuildRequest(cfg, call, f.token.value);
    }
    assert forall req <- step.sent :: SentFor(cfg, call, req);
    if step.result.Failure? && i + 1 < MaxAttempts {
      RetrySendsOnlyCall(cfg, step.cache, call, env, i + 1);
    }
  }

  /** The shape of every request: method, URL, bearer header, parameters and body of the call. */
  lemma RequestShape(cfg: ZohoConfig, call: ApiCall, req: ApiRequest)
    requires SentFor(cfg, call, req)
    ensures req.verb == call.verb && req.params == call.params && req.body == call.data
    ensures req.url == cfg.apiBaseUrl + "/" + call.endpoint
    ensures req.headers.Keys == {"Authorization", "Content-Type"}
    ensures req.headers["Content-Type"] == "application/json"
    ensures exists token :: req.headers["Authorization"] == "Bearer " + token
  {
    var token :| req == BuildRequest(cfg, call, token);
    assert req.headers["Authorization"] == "Bearer " + token;
  }

  /** A failed attempt before the third is retried, whatever the failure, translated or not. */
  lemma FailedAttemptIsRetried(cfg: ZohoConfig, c: Cache, call: ApiCall, env: nat -> Attempt, i: nat)
    requires i + 1 < MaxAttempts
    requires AttemptOnce(cfg, c, call, env(i)).result.Failure?
    ensures var s := AttemptOnce(cfg, c, call, env(i));
      RetryFrom(cfg, c, call, env, i) == After(s.sent, RetryFrom(cfg, s.cache, call, env, i + 1))
    ensures RetryFrom(cfg, c, call, env, i).attempts > i + 1
  {
  }

  /**
   * A call that gave up carries the error of its third attempt, and ends
   * with the cache that attempt left; `before` is the cache it started from.
   */
  lemma {:induction false} GaveUpCarriesLastError(cfg: ZohoConfig, c: Cache, call: ApiCall, env: nat -> Attempt, i: nat)
    returns (before: Cache)
    requires i < MaxAttempts
    requires RetryFrom(cfg, c, call, env, i).outcome.GaveUp?
    ensures var r, s := RetryFrom(cfg, c, call, env, i), AttemptOnce(cfg, before, call, env(MaxAttempts - 1));
      s.result == Failure(r.outcome.last) && s.cache == r.cache
    decreases MaxAttempts - i
  {
    if i + 1 < MaxAttempts {
      var step := AttemptOnce(cfg, c, call, env(i));
      before := GaveUpCarriesLastError(cfg, step.cache, call, env, i + 1);
    } else {
      before := c;
    }
  }

  /**
   * When every reply of the API is a failure, the call gives up after
   * exactly three attempts, and it sent no more than three requests.
   */
  lemma {:induction false} PersistentFailureGivesUp(cfg: ZohoConfig, c: Cache, call: ApiCall, env: nat -> Attempt, i: nat)
    requires i < MaxAttempts
    requires forall j :: i <= j < MaxAttempts ==> Interpret(env(j).api).Failure?
    ensures RetryFrom(cfg, c, call, env, i).outcome.GaveUp?
    ensures RetryFrom(cfg, c, call, env, i).attempts == MaxAttempts
    decreases MaxAttempts - i
  {
    var step := AttemptOnce(cfg, c, call, env(i));
    assert step.result.Failure?;
    if i + 1 < MaxAttempts {
      PersistentFailureGivesUp(cfg, step.cache, call, env, i + 1);
    }
  }

  /**
   * The run returned the decoded reply of its last attempt, and its last
   * request carried the token the cache holds at the end.
   */
  ghost predicate EndsWithLastReply(cfg: ZohoConfig, call: ApiCall, env: nat -> Attempt, r: Run)
  {
    && r.outcome.Returned?
    && r.attempts > 0
    && Interpret(env(r.attempts - 1).api) == Success(r.outcome.body)
    && r.cache.token.Some?
    && |r.sent| > 0
    && r.sent[|r.sent| - 1] == BuildRequest(cfg, call, r.cache.token.value)
  }

  /**
   * A returned body is the decoded reply of the last attempt, the last
   * request sent, under the token the cache holds at the end.
   */
  lemma {:induction false} ReturnedIsLastReply(cfg: ZohoConfig, c: Cache, call: ApiCall, env: nat -> Attempt, i: nat)
    requires i < MaxAttempts
    requires RetryFrom(cfg, c, call, env, i).outcome.Returned?
    ensures EndsWithLastReply(cfg, call, env, RetryFrom(cfg, c, call, env, i))
    decreases MaxAttempts - i
  {
    var step := AttemptOnce(cfg, c, call, env(i));
    if step.result.Failure? {
      assert i + 1 < MaxAttempts;
      ReturnedIsLastReply(cfg, step.cache, call, env, i + 1);
      ReturnedAfterFailedAttempt(cfg, c, call, env, i);
    } else {
      SuccessfulAttemptReturns(cfg, c, call, env, i);
    }
  }

  /** A failed attempt does not change how the rest of the call ends. */
  lemma ReturnedAfterFailedAttempt(cfg: ZohoConfig, c: Cache, call: ApiCall, env: nat -> Attempt, i: nat)
    requires i + 1 < MaxAttempts
    requires AttemptOnce(cfg, c, call, env(i)).result.Failure?
    requires EndsWithLastReply(cfg, call, env, RetryFrom(cfg, AttemptOnce(cfg, c, call, env(i)).cache, call, env, i + 1))
    ensures EndsWithLastReply(cfg, call, env, RetryFrom(cfg, c, call, env, i))
  {
    var step := AttemptOnce(cfg, c, call, env(i));
    var rest := RetryFrom(cfg, step.cache, call, env, i + 1);
    FailedAttemptIsRetried(cfg, c, call, env, i);
    EarlierRequestsKeepEnding(cfg, call, env, step.sent, rest);
  }

  /** Requests sent before a run leave how it ends as it is. */
  lemma EarlierRequestsKeepEnding(cfg: ZohoConfig, call: ApiCall, env: nat -> Attempt, earlier: seq<ApiRequest>, run: Run)
    requires EndsWithLastReply(cfg, call, env, run)
    ensures EndsWithLastReply(cfg, call, env, After(earlier, run))
  {
    var r := After(earlier, run);
    assert r.sent[|r.sent| - 1] == run.sent[|run.sent| - 1];
  }

  /** An attempt that succeeds ends the call with its body, its one request and the token it used. */
  lemma SuccessfulAttemptReturns(cfg: ZohoConfig, c: Cache, call: ApiCall, env: nat -> Attempt, i: nat)
    requires i < MaxAttempts
    requires AttemptOnce(cfg, c, call, env(i)).result.Success?
    ensures var r := RetryFrom(cfg, c, call, env, i);
      && r.outcome == Returned(Interpret(env(i).api).value)
      && r.attempts == i + 1
      && r.cache.token.Some?
      && r.sent == [BuildRequest(cfg, call, r.cache.token.value)]
    ensures EndsWithLastReply(cfg, call, env, RetryFrom(cfg, c, call, env, i))
  {
    var step := AttemptOnce(cfg, c, call, env(i));
    AttemptOnceCases(cfg, c, call, env(i));
    GetTokenCases(c, env(i).now, env(i).auth);
    assert RetryFrom(cfg, c, call, env, i) == Run(step.cache, Returned(step.result.value), step.sent, i + 1);
  }

  /** A call whose first attempt succeeds is not retried. */
  lemma FirstSuccessIsNotRetried(cfg: ZohoConfig, c: Cache, call: ApiCall, env: nat -> Attempt)
    requires AttemptOnce(cfg, c, call, env(0)).result.Success?
    ensures Retry(cfg, c, call, env).attempts == 1
    ensures Retry(cfg, c, call, env).outcome == Returned(Interpret(env(0).api).value)
    ensures |Retry(cfg, c, call, env).sent| == 1
  {
  }
}
