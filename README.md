# Zoho Books client: token cache, request wrapper and invoice listing

This project models the `ZohoBooks` class of a thin Zoho Books client and proves properties of the model. The class has three parts:

- **Token cache.** Two optional fields hold the cached access token and its expiry. Reading the `access_token` property renews the token lazily, using the OAuth 2.0 refresh-token grant (section 6 of RFC 6749, with `expires_in` from section 5.1). This happens only when the cached token is falsy or expired. A token with no expiry counts as expired, and so does one whose expiry is at or before now. A successful renewal stores the new token and `now + expires_in`; `expires_in` defaults to 3600 seconds. A failure raises `ZohoAuthError`.
- **Request wrapper** (`_make_request`). Each attempt reads the token property. It sends the request to `api_base_url + "/" + endpoint` with an `Authorization: Bearer <token>` header (section 2.1 of RFC 6750) and a JSON content type. A status from 400 to 599 counts as a failure, and so does a body that is not JSON. A failed attempt is retried, and the call stops after three attempts.
- **Invoice listing** (`get_invoices`). It builds the query parameters in place. `organization_id` is always present. `date_start`, `date_end` and `status` are added only when their argument is truthy. It then issues `GET invoices` and returns the reply's `invoices` value, or `[]` when that key is missing.

Layout:

- `wrappers.dfy`: `Option`, `Result`, and the truth value of an optional string.
- `http.dfy`: the JSON values and the statuses that `raise_for_status` rejects.
- `settings.dfy`: the configuration record.
- `token_cache.dfy`: the token state machine as functions, with lemmas.
- `executor.dfy`: one attempt, the retry as a recursive function, and lemmas.
- `invoices.dfy`: the query parameters and the extraction of the list.
- `zoho_books.dfy`: the class. Its fields are the configuration, the cached token and its expiry. Its methods update those fields in place and are proved equal to the functions above.

Time is an integer number of seconds, passed as a parameter. The replies of the token endpoint and of the API are abstract values passed as parameters. For the retried call, attempt `i` takes the clock reading, the token endpoint's reply and the API's reply from `env(i)`.

Three facts about the code shape the model:

- The token and its expiry are not replaced together. Line 87 writes the token before lines 88-90 compute the expiry. If `expires_in` is present but is not a number, computing the expiry raises after that write. The new token is then paired with the old expiry, and `ZohoAuthError` is raised. `Refresh` models this, and `PartialRefreshServesNewToken` shows the new token being served afterwards.
- The retry decorator has no retry condition, so it retries any exception. That includes a `ZohoAuthError` raised while an attempt reads the token. Every attempt re-checks the token.
- Only a `RequestException` from the HTTP call is translated into `ZohoAPIError`. Any other exception from the call leaves the attempt untranslated, and the decorator still retries it.
- Any exception inside the refresh becomes `ZohoAuthError`. That includes a body that is not a JSON object.

## Model

| member | source | states |
|---|---|---|
| `TokenCache.Expired` | src/zoho_integration.py:60-64 | a token is expired unless an expiry is stored and now is strictly before it |
| `TokenCache.NoExpiryIsExpired` | src/zoho_integration.py:62-63 | with no expiry stored the token is expired and the property will refresh, whatever the token |
| `TokenCache.ExpiredExactlyFrom` | src/zoho_integration.py:64 | with an expiry stored, the token is expired exactly when now is at or after it; an expiry equal to now is expired |
| `TokenCache.ExpiryIsPermanent` | src/zoho_integration.py:60-64 | a token expired at some time stays expired at every later time |
| `TokenCache.RefreshRequest` | src/zoho_integration.py:74-82 | the refresh POSTs to `auth_base_url/token` with exactly the four parameters of the refresh-token grant: the refresh token, the client id and secret, and `grant_type=refresh_token` |
| `TokenCache.Refresh` | src/zoho_integration.py:66-96 | a refresh succeeds exactly for a non-error reply whose JSON object holds `access_token` and a numeric or missing `expires_in`; it then stores that token and `now + expires_in` (3600 if missing); a failure up to the `access_token` lookup leaves both fields unchanged; a non-numeric `expires_in` fails with the new token beside the old expiry |
| `TokenCache.GrantedTokenIsFresh` | src/zoho_integration.py:87-90 | right after a successful refresh with a positive lifetime, the stored token is the granted one and is not expired |
| `TokenCache.PartialRefreshServesNewToken` | src/zoho_integration.py:87-90 | a refresh whose reply holds any non-empty token but a non-numeric `expires_in` raises, yet the property serves that new token until the old expiry |
| `TokenCache.GetToken` | src/zoho_integration.py:44-57 | whenever the property returns a token, the cache holds that token afterwards |
| `TokenCache.GetTokenCases` | src/zoho_integration.py:44-57 | the property returns the cached token and changes nothing when it is truthy and unexpired; otherwise it refreshes; on success the cache holds the returned token; it raises only when a needed refresh failed |
| `TokenCache.TokenIsReusedUntilExpiry` | src/zoho_integration.py:55-57 | a non-empty token obtained from the property is served again, with nothing written, at any time before its expiry, whatever the token endpoint would reply |
| `Zoho.ZohoBooks.constructor` | src/zoho_integration.py:30-34 | a new client keeps its configuration and holds no token and no expiry, so the first read refreshes |
| `Zoho.ZohoBooks.TokenExpired` | src/zoho_integration.py:59-64 | on the client's fields: expired when no expiry is stored, otherwise exactly when the expiry is at or before now |
| `Zoho.ZohoBooks.RefreshAccessToken` | src/zoho_integration.py:66-96 | the in-place refresh sends `RefreshRequest` and leaves the fields and the raised failure as `Refresh` says |
| `Zoho.ZohoBooks.AccessToken` | src/zoho_integration.py:44-57 | the in-place property leaves the fields and returns the token or the failure as `GetToken` says |
| `Zoho.ZohoBooks.AttemptCall` | src/zoho_integration.py:124-145 | one run of the request body reads the token property and then sends at most one request, as `AttemptOnce` says |
| `Zoho.ZohoBooks.MakeRequest` | src/zoho_integration.py:98-145 | the retry loop ends with the fields, the outcome, the requests sent and the attempts made that `Retry` gives |
| `Zoho.ZohoBooks.GetInvoices` | src/zoho_integration.py:147-183 | the listing builds its parameters in place, makes the retried `GET invoices` call of `InvoiceCall`, and returns what `ListingResult` extracts |
| `Executor.ClampWait` | src/zoho_integration.py:98-101 | a configured wait is clamped to [4, 10] seconds, and a wait already in that range is kept |
| `Executor.Interpret` | src/zoho_integration.py:132-145 | a reply is a success exactly when its status is not 4xx/5xx and its body is JSON, and the decoded body is returned unchanged; a 4xx/5xx status is an API error carrying that status; a failure is an API error exactly when the call did not raise an exception other than a `RequestException`, and it is never an auth failure |
| `Executor.BuildRequest` | src/zoho_integration.py:125-130 | the request goes to `api_base_url + "/" + endpoint` with the call's method, parameters and body, and exactly the headers `Authorization: Bearer <token>` and `Content-Type: application/json` |
| `Executor.AttemptOnce` | src/zoho_integration.py:124-145 | one attempt sends at most one request, and a successful attempt sent exactly one |
| `Executor.AttemptOnceCases` | src/zoho_integration.py:124-145 | an attempt whose token read fails sends nothing and fails with that auth failure, which is not translated; otherwise it sends the one request built with that token, succeeds exactly when the reply is a success, a `RequestException` failure becomes the API error carrying it, and any other exception from the call becomes the untranslated failure |
| `Executor.RetryFrom` | src/zoho_integration.py:98-101 | the retried call makes at least one and at most three attempts, sends at most one request per attempt, and gives up only after the third attempt |
| `Executor.Retry` | src/zoho_integration.py:98-101 | a retried call makes one to three attempts, sends at most one request per attempt, and gives up only after the third |
| `Executor.RetrySendsOnlyCall` | src/zoho_integration.py:125-138 | every request of a retried call is the call's request under some bearer token |
| `Executor.RequestShape` | src/zoho_integration.py:125-138 | such a request targets `api_base_url + "/" + endpoint` with the call's method, parameters and body, and the headers the code passes to the HTTP library are exactly `Authorization: Bearer <token>` and `Content-Type: application/json` (the library adds its own defaults, which are not modelled) |
| `Executor.PersistentFailureGivesUp` | src/zoho_integration.py:98-101 | when every API reply fails, the call gives up after exactly three attempts |
| `Executor.FailedAttemptIsRetried` | src/zoho_integration.py:98-101 | any failed attempt before the third, translated or not, is followed by another attempt from the cache it left |
| `Executor.GaveUpCarriesLastError` | src/zoho_integration.py:98-101 | a call that gave up carries the error of its third attempt and ends with the cache that attempt left |
| `Executor.SuccessfulAttemptReturns` | src/zoho_integration.py:124-141 | an attempt that succeeds ends the call with its decoded body and its single request, sent under the token the cache then holds |
| `Executor.ReturnedIsLastReply` | src/zoho_integration.py:124-141 | a returned body is the decoded reply of the last attempt, whose request was the last one sent and carried the token the cache holds at the end |
| `Executor.FirstSuccessIsNotRetried` | src/zoho_integration.py:98-101 | a call whose first attempt succeeds makes one attempt and sends one request |
| `Invoices.InvoiceParams` | src/zoho_integration.py:164-173 | `organization_id` is always sent with the configured id; `date_start`, `date_end` and `status` are present exactly when their argument is truthy, with the value unchanged; no other key is sent |
| `Invoices.NoFiltersSendOrganizationOnly` | src/zoho_integration.py:164-173 | a listing with no truthy filter sends `organization_id` alone |
| `Invoices.ExtractInvoices` | src/zoho_integration.py:183 | the value under `invoices` is returned unchanged, `[]` when the key is missing; a reply that is not an object raises |
| `Invoices.ListedInvoicesKeepOrder` | src/zoho_integration.py:183 | a reply holding a list of invoices yields exactly that list, in order |
| `Invoices.ListingResult` | src/zoho_integration.py:177-183 | a listing whose call gave up raises with the last error; otherwise it returns the extraction of the body |
| `Invoices.InvoiceCall` | src/zoho_integration.py:177-181 | a listing is a `GET` of the `invoices` endpoint with the listing's parameters and no body |
| `Invoices.ListingRequests` | src/zoho_integration.py:177-181 | every request of a listing is a `GET` of `api_base_url/invoices` with the listing's parameters, a JSON content type and no body |

## Left out

- Configuration loading (`src/config.py`): reading the environment and `.env` files, and `SecretStr`. The model takes the configuration as a record of plain strings, and the proxy settings are not part of it.
- Logging: the log file setup and the info and error log entries.
- The HTTP transport and JSON decoding. Their results are the abstract reply values `AuthResponse` and `ApiResponse`.
- `Executor.ClampWait`: records only that waits are clamped to 4 to 10 seconds. The exponential schedule, the sleeping, and which exception surfaces after the third failure (a `RetryError` or the last error) belong to the retry library and are not modelled. `GaveUp` carries the last attempt's error (`Executor.GaveUpCarriesLastError`).
- `Executor.Interpret`: treats a body that is not JSON as a request failure. That holds for `requests` 2.27 and later, where the decode error is a `RequestException`. In older versions it is a `ValueError`, and it is not translated into `ZohoAPIError`.
- Reading the clock: each read of the token property uses one time value, both for the expiry check and for the new expiry. Time that passes during the token POST is not modelled.
- `TokenCache.Refresh`: models `access_token` only as missing or a string. JSON `null` or other non-string tokens are not modelled, and they would be stored as they are. `expires_in` is modelled as a whole number of seconds. Fractional seconds and expiries past the largest `datetime` are not modelled.
- `Invoices.ExtractInvoices`: returns the `invoices` value as any JSON value. The model does not check that it is a list of objects, and the code does not check this either.
- Concurrency: the class has none, and the model is sequential.
