# Request layer of go-clouddriveclient, in Dafny

This project models the request-execution core of `go-clouddriveclient`, a
Go client for the Amazon Cloud Drive REST API, and proves properties of it.
It covers three pieces:

- **The error normaliser** (`errors.go`). It turns the HTTP client's
  "unexpected status" failure into a `CloudDriveError` with the service's
  code taxonomy. Two backend quirks are built in: a bare 404 "Node does not
  exists" and a 429 forced to `TOO_MANY_REQUESTS`. The model also covers
  `IsCloudDriveError`, `Error()` and the two sentinel errors.
- **The token lifecycle** (`auth.go`). `CloudDriveAuth` is a class whose
  `ValidToken` method refreshes the access token through the OAuth token
  endpoint once it is within five minutes of expiry. Only a fully
  successful refresh rewrites the token and its expiry.
- **The request executor** (`clouddrive.go`). `Request` is the bounded
  retry loop: it authorises every attempt with a bearer token, retries only
  429 answers, and waits a random number of whole seconds below 2^attempt
  between attempts. On top of it sit:
  - the metadata and content guards;
  - `GetEndpoint` and `LookupRoot`, with their sentinel errors;
  - `LookupNode`, which builds a quote-escaped filter and takes the first match;
  - `NodeChildren`, which pages through a folder by next tokens;
  - `NewCloudDrive` and `InitEndpoint`.

The network, the clock, JSON decoding and URL parsing are inputs to the
model:

- The server is an oracle `Env<T> = nat -> World<T>`. For each attempt it
  gives the clock reading taken by the token check, the answer to a refresh
  POST if one is due, the clock reading after the refresh, and the server's
  answer: a decoded value or the error the HTTP client reports.
- `NodeChildren` takes one such oracle per page.
- JSON decoding of error bodies is a function parameter (`ErrorBodyDecoder`).
- URL parsing is a function parameter (`parseUrl`).

Each imperative operation is a method proved against a pure function:

- `CloudDriveAuth.ValidToken` against `TokenStep`;
- `CloudDrive.Request` against `RequestRun`, which is built from
  `Attempts` and one pass of the loop, `OnePass`;
- `CloudDrive.NodeChildren` against `Paging`.

The behaviour the Go code promises is then proved as lemmas about those
functions: attempt budgets, exact request counts under rate limiting,
page concatenation and token following.

Files:

- `wrappers.dfy`: `Option` and `Result`.
- `text.dfy`: decimal rendering (`%d`) and character counting.
- `errors.dfy`: module `Errors`.
- `auth.dfy`: module `Auth`.
- `types.dfy`: the records of `types.go` and the constants of `consts.go`.
- `drive.dfy`: module `Drive`, with the class `CloudDrive`.

Where the code and its documentation differ, the model follows the code:

- `clouddrive.go:101` calls `ValidToken(authCtx)`, but `auth.go:21` takes no
  argument. The model follows `auth.go`: the token fetch has no context.
- `clouddrive.go:35` sets `auth.HTTPClient`, a field that `auth.go` does not
  declare. `auth.go` posts with `http.PostForm` directly, and the model
  does the same through the refresh oracle.

## Model

| member | source | states |
|---|---|---|
| Errors.Render | errors.go:18-20 | `Error()` is the code, then ": ", then the message, piece by piece and with the exact length |
| Errors.RenderInjective | errors.go:18-20 | for codes without a colon, two errors render alike only when code and message both agree |
| Errors.IsCloudDriveError | errors.go:36-42 | yields (the error, true) exactly when the error is a structured one, else (nothing, false) |
| Errors.Decoded | errors.go:50-61 | a non-JSON Content-Type or an undecodable body gives code "unknown" with the raw body as message; a decoded object is taken field by field; a `null` body counts as an empty object |
| Errors.HandleError | errors.go:44-80 | errors other than invalid-status pass through unchanged; an invalid-status error always becomes a structured error that keeps it as its cause and keeps the decoded logref; a 429 gets TOO_MANY_REQUESTS, with "Rate exceeded" when the message is empty; a 404 gets NODE_NOT_FOUND only for an empty code with "Node does not exists"; every other status keeps the decoded code and message verbatim |
| Errors.NonJsonBodyIsUnknown | errors.go:58-61 | a body with a non-JSON Content-Type and a status other than 429 yields exactly ("unknown", raw body, no logref, cause) |
| Errors.MalformedBodyIsUnknown | errors.go:53-57 | a JSON body that fails to decode, with a status other than 429, yields code "unknown" and the raw body as message |
| Errors.NodeNotFoundQuirk | errors.go:63-66 | in both directions: a 404 reports NODE_NOT_FOUND exactly when the decoded code already was that, or was empty with the message "Node does not exists" |
| Errors.HandleErrorIdempotent | errors.go:44-80 | normalising an already normalised error changes nothing |
| Errors.SentinelsAreDistinguishable | errors.go:22-34 | no normalised server error equals `ErrRootNotFound` or `ErrCustomerNotFound`, because only the former carries a cause |
| Errors.NodeDoesNotExistScenario | errors.go:63-66 | the live-test 404 body `{"message":"Node does not exists"}` becomes NODE_NOT_FOUND with that message |
| Errors.RateExceededScenario | errors.go:68-75 | the live-test 429 body yields TOO_MANY_REQUESTS, "Rate exceeded" and logref "LOGREF-UUID" |
| Errors.NullBodyPanicsAsWritten | errors.go:50-54 | as written, an error response whose JSON body is `null` leaves the result pointer nil (the code then dereferences it) |
| Errors.HandleErrorAgreesAsWritten | errors.go:44-80 | the code as written fails exactly on a JSON `null` body; on every other input it agrees with `HandleError` |
| Auth.RefreshForm | auth.go:23-28 | the refresh form holds exactly grant_type=refresh_token plus the stored client id, secret, redirect URI and refresh token |
| Auth.TokenStep | auth.go:21-61 | no refresh before the five-minute margin: the stored token is returned and nothing changes. When a refresh is due, it succeeds exactly when the POST and the read succeed, the status is 200 and the body decodes; success stores the new token and `refreshedAt + expires_in`. Every failure returns an error and leaves the state as it was |
| Auth.RefreshBoundary | auth.go:22 | exactly at expiry minus 300 seconds no refresh happens; one second later it does |
| Auth.RefreshStatusReported | auth.go:44-47 | a refresh answered with a status other than 200 reports "Token refresh failed <code>: <status>" and keeps the old token |
| Auth.FreshTokenNotRefreshedAgain | auth.go:22-55 | after a successful refresh, a call at any time up to the new expiry minus the margin returns the new token without refreshing |
| Auth.SameTimeNotRefreshedAgain | auth.go:22-55 | after a successful refresh granting at least 300 seconds, a second call at the same `now` returns the new token without refreshing |
| Auth.CloudDriveAuth.constructor | auth.go:12-19 | the credentials and the token state are the given ones |
| Auth.CloudDriveAuth.ValidToken | auth.go:21-61 | posts the refresh form to https://api.amazon.com/auth/o2/token exactly when a refresh is due; the token returned and the new state are those of `TokenStep`; on failure the token is "" and the state is unchanged; the client id, secret, redirect URI and refresh token are never modified |
| Drive.Authorized | clouddrive.go:106-110 | an attempt's descriptor gets a header map when it had none, and gets `Authorization: Bearer <token>`; every other header and field is unchanged |
| Drive.OnePass | clouddrive.go:98-129 | one pass goes round again exactly when the token check succeeded, the answer was a 429 and attempts remain; it ends without sending exactly when the token check failed; whatever it sends is the descriptor authorised with the token that this pass's token check returned, which is the new one after a refresh; the token state after it is the token check's; success carries the server's value |
| Drive.AttemptsBounds | clouddrive.go:92-131 | the loop panics exactly when no attempt is left; it sends at most one request per remaining attempt; there is one pause between each two requests |
| Drive.AttemptBudget | clouddrive.go:79-92 | a copyable request sends at most `MaxRetries` requests; a stream request sends at most one and never panics; `panic("unreachable")` is reached exactly when a copyable request meets `MaxRetries <= 0` |
| Drive.TokenFailureReturnedAsIs | clouddrive.go:101-104 | a token failure is returned unchanged, before that attempt sends anything, and the token state stays as it was |
| Drive.OtherFailureNotRetried | clouddrive.go:114-125 | a failure other than 429 is normalised once and returned after exactly one request, with no pause |
| Drive.RateLimitedThroughout | clouddrive.go:115-125 | when every remaining attempt is answered 429, all of them are sent, with a pause between each two, and the last answer is returned normalised |
| Drive.PersistentRateLimit | clouddrive.go:115-125 | the same run ends with code TOO_MANY_REQUESTS |
| Drive.RecoversAfterRateLimits | clouddrive.go:112-128 | 429 on the first k-1 attempts and a value on the k-th, within budget, gives that value after exactly k requests and k-1 pauses |
| Drive.EveryAttemptAuthorized | clouddrive.go:95-112 | every request sent in a whole call is the caller's descriptor with a bearer token set, sent through the caller's client (which token, attempt by attempt, `Drive.OnePass` states) |
| Drive.FailureIsLastAnswerNormalised | clouddrive.go:101-125 | an error returned is either the token failure of the attempt after the last request, with the state untouched, or the normalised last rejection |
| Drive.ChildrenQuery | clouddrive.go:263-278 | a page request is GET /nodes/<id>/children; it carries `startToken` exactly when the token is non-empty, and no other parameter |
| Drive.PagingBounds | clouddrive.go:262-297 | a listing sends one request per page it reads, and runs out of modelled pages only when every page read asked for more |
| Drive.PagingConcatenates | clouddrive.go:286-299 | a successful listing is the in-order concatenation of the nodes of its pages, and all of those pages succeeded |
| Drive.PagingFollowsTokens | clouddrive.go:258-296 | the first request carries no start token; each later request carries the previous page's next token, and that page was non-empty |
| Drive.PagingEndsAtLastPage | clouddrive.go:280-294 | paging stops at the first empty page, empty next token or error; an error or panic there is the listing's, and the nodes gathered are discarded |
| Drive.EscapeQuotes | clouddrive.go:203 | the escaped name holds no `"`; it is longer by one per quote; a name without quotes is unchanged |
| Drive.EscapeQuotesConcat | clouddrive.go:203 | escaping distributes over concatenation |
| Drive.EscapeQuotesNotInjective | clouddrive.go:203 | a quote and two backslashes escape alike, so distinct names can give the same filter |
| Drive.LookupFilterQuotes | clouddrive.go:203-206 | the filter `parents:<id> AND name:"<escaped>"` holds exactly two quotes besides those of the parent id |
| Drive.FirstMatch | clouddrive.go:220-230 | no match gives "not found" without error; otherwise the first node is the result; errors pass through |
| Drive.RootOf | clouddrive.go:187-199 | the root is the first node; an empty answer gives `ErrRootNotFound`; errors pass through |
| Drive.EndpointOf | clouddrive.go:160-168 | an endpoint whose customer does not exist gives `ErrCustomerNotFound`; anything else passes through |
| Drive.RateLimitedListing | clouddrive_test.go:414-437 | with MaxRetries 2 and a server answering 429 to everything, a listing sends exactly two requests and fails with TOO_MANY_REQUESTS |
| Drive.ListingRecoversFromRateLimit | clouddrive_test.go:440-466 | with MaxRetries 3, two 429s and then an empty page give exactly three requests and an empty listing |
| Drive.CloudDrive.constructor | clouddrive.go:32-51 | a new client has the discovery client at https://drive.amazonaws.com/drive/v1, `MaxRetries` 5 and no metadata or content client |
| Drive.CloudDrive.InitEndpoint | clouddrive.go:57-76 | both service clients are set from the parsed URLs, or, when the content URL or then the metadata URL fails to parse, neither is set and that parse error is returned |
| Drive.CloudDrive.Request | clouddrive.go:78-132 | the outcome, the requests sent and the new token state are those of `RequestRun`; there is one pause per backoff, each below 2^attempt seconds; a stream request's own descriptor keeps the Authorization header, while a copyable one is left untouched; credentials are unchanged |
| Drive.CloudDrive.TryOnce | clouddrive.go:93-129 | one pass of the loop body behaves as `OnePass` specifies |
| Drive.CloudDrive.MetadataRequest | clouddrive.go:134-139 | with no metadata client, fails with "metadata client not initialized" and sends nothing; otherwise it is `Request` on that client |
| Drive.CloudDrive.ContentRequest | clouddrive.go:141-146 | with no content client, fails with "content client not initialized" and sends nothing; otherwise it is `Request` on that client |
| Drive.CloudDrive.GetEndpoint | clouddrive.go:148-169 | one discovery request on the endpoint client, shaped by `EndpointOf` |
| Drive.CloudDrive.LookupRoot | clouddrive.go:171-200 | one metadata request with filter `isRoot:true`, shaped by `RootOf` |
| Drive.CloudDrive.LookupNode | clouddrive.go:202-231 | one metadata request with the escaped name filter, shaped by `FirstMatch` |
| Drive.CloudDrive.NodeChildren | clouddrive.go:257-300 | the outcome, the page requests, the replies and the new token state are those of `Paging` |

## Left out

- The HTTP transport and the `httpclient` library are not modelled. This
  includes `client.Request`, `RequestData.Copy` and `CanCopy`, and
  `IsInvalidStatusError`. A request is copyable exactly when its body is
  not a stream, and the server's answer comes from the oracle.
- JSON decoding, `url.Parse` and `http.PostForm` are foreign library
  calls; their results are inputs. Response bodies arrive already decoded.
- `time.Sleep`, `rand.Intn` and the `math.Pow` float conversion are not
  modelled. A pause is any whole number of seconds below 2^attempt, chosen
  nondeterministically.
- Contexts, cancellation and concurrency: the code has no lock, and the
  model runs one call at a time.
- `time.Time` is modelled as whole Unix seconds. A `time.Duration`
  overflow for huge `expires_in` values is not modelled.
- `Node.ModifiedDate` and `Node.Reader` are not part of the `Node` record:
  the request layer never reads them.
- The thin request builders are not modelled. They are `CreateFolder`,
  `DeleteNode`, `RenameNode`, `MoveNode`, `Quota`, `Changes` (with its gzip
  decoding), `DownloadNode`, `DownloadNodeByTempLink`, `UploadNode`,
  `OverwriteNode` and `LookupNodeById`. They only build one descriptor and
  call the guards above. A stream upload is exactly a non-copyable request,
  which `Drive.AttemptBudget` covers.
- `CloudDrive.HandleError` (clouddrive.go:53-55) only forwards to
  `Errors.HandleError`.
- The copy a copyable request works on shares its header map with the
  caller's descriptor in Go (`Copy` is in the library). The model treats
  copies as values and reports only the caller's descriptor after the call.
- A 200 answer whose JSON body is `null` is not modelled: bodies arrive decoded.
- Drive.CloudDrive.Request: normalises failures with the corrected
  `Errors.HandleError`. For an error answer with a JSON Content-Type and
  the body `null`, the Go code panics (clouddrive.go:125 into errors.go:54
  and 77). This happens on a status other than 429 or on the last 429. The
  model instead returns a structured error: code "" for most statuses,
  TOO_MANY_REQUESTS for a 429. The same holds for `MetadataRequest`,
  `ContentRequest`, `GetEndpoint`, `LookupRoot`, `LookupNode` and
  `NodeChildren`, which run through `Request`. The Findings table records the
  as-written behaviour.
- Drive.CloudDrive.NodeChildren: the pages are a finite sequence of
  oracles. A listing still asking for more when they run out ends with
  outcome None, where the Go loop would go on requesting pages.
- Drive.RateLimitedListing: does not state the message "Rate exceeded"
  (clouddrive_test.go:436), because the JSON body of the answer is an input;
  `Errors.RateExceededScenario` states it for the body the test sends.

## Findings

| source | as written | input that shows it | evidently intended | confidence | as-written member | corrected member |
|---|---|---|---|---|---|---|
| errors.go:50-54 | the body is decoded into `&cloudDriveErr`, a pointer to a pointer, so a JSON body `null` sets `cloudDriveErr` to nil without a decoding error. Lines 64, 71 and 77 then dereference nil and panic | an invalid-status error with status 500, Content-Type `application/json` and body `null` | decode into the struct, so that `null` leaves an empty error object, which is then normalised like `{}` | not executed | Errors.NullBodyPanicsAsWritten | Errors.HandleError |
