# Mudrex trading API client: transport core

A Dafny model of the shared transport layer of the Go client for the Mudrex
futures trading API. Every endpoint call goes through this layer:

- `Errors` (errors.go): the error family. `MudrexError` and the seven types
  that embed it become one `MudrexError` record with an `ErrorKind` tag.
  `RaiseForError` maps an HTTP status and the decoded response envelope to no
  error or one error. `contains` is the naive substring search it uses. It is
  modelled both as a recursive function (`ContainsFrom`/`Contains`) and as the
  Go index loop (`ContainsScan`).
- `RateLimit` (client.go, lines 30-57): the `RateLimiter` class over an
  abstract `Clock`. `Wait` sleeps out what is left of the half-second
  interval and then stamps `lastRequestTime`. Clock readings are nanoseconds
  since Go's zero time, so a fresh limiter's zero stamp is 0. `Sub` models
  `Time.Sub`, including its saturation to the 64-bit `Duration` range.
- `Transport` (client.go): the `Client` class. It holds the credential, base
  URL, timeout, rate limiter and clock. `DoRequest` and the four verbs each
  receive the network's outcome as an `Exchange` oracle value. A ghost
  `trace` records the limiter stamp and the request sent, in order.

Where the code and its own comments differ, the model follows the code:

- Status 400 is always a validation error. The comment at errors.go:91
  speaks of "400 with specific message", but the insufficient-balance test
  (code 1002, or the message contains "insufficient balance") sits only in
  the `default` branch of the switch, so it applies only to the other 4xx
  statuses.
- An undecodable body gives the plain base error with code -1 for every
  status of 400 and above. That includes 5xx: such an error is never a
  server error.

## Model

| member | source | states |
|---|---|---|
| Errors.ContainsFrom | errors.go:102-107 | the search from index i succeeds iff sub occurs at some index j >= i |
| Errors.Contains | errors.go:101-108 | contains(s, sub) holds iff sub occurs somewhere in s; it always holds for an empty sub and never when sub is longer than s |
| Errors.ContainsScan | errors.go:101-108 | the index loop with early return finds sub iff sub occurs in s |
| Errors.RaiseForError | errors.go:49-99 | no error iff status < 400; any error carries the input status; the error is the base kind iff the body did not decode |
| Errors.NoErrorBelow400 | errors.go:50-52 | every status below 400 gives no error, whatever the body |
| Errors.UndecodableIsBaseError | errors.go:54-62 | an undecodable body gives the base error with code -1, the raw body as message and the input status, for every status >= 400 including 5xx |
| Errors.DecodedFields | errors.go:64-73 | with a decoded envelope the error is never the base kind; code defaults to the status and message to the envelope message; the envelope's error object replaces both |
| Errors.ExactStatusKinds | errors.go:76-88 | with a decoded envelope, 401 gives Authentication, 429 RateLimit, 400 Validation, 404 NotFound, 409 Conflict, and 500/502/503/504 Server |
| Errors.Status400NeverInsufficientBalance | errors.go:81-82 | status 400 is a validation error whatever the code and message |
| Errors.OtherClientErrorKind | errors.go:89-96 | any other 4xx status gives InsufficientBalance iff the code is 1002 or the message contains "insufficient balance", and Validation otherwise |
| Errors.OtherServerErrorKind | errors.go:97 | every status >= 500 outside {500, 502, 503, 504} gives a server error |
| RateLimit.Sub | client.go:50 | the elapsed duration is t - u when that fits in a Duration, and otherwise saturates to the Duration bounds |
| RateLimit.SleepFor | client.go:49-54 | Wait sleeps only when less than minInterval has elapsed, for at most minInterval; when it sleeps, it wakes at the last stamp plus minInterval |
| RateLimit.NextStamp | client.go:49-56 | the new stamp is the later of the entry time and the last stamp plus minInterval |
| RateLimit.RateLimiter.NewRateLimiter | client.go:38-42 | a fresh limiter has a half-second interval and the zero last-request time |
| RateLimit.RateLimiter.Wait | client.go:45-57 | the clock advances by exactly the sleep; the stamp is the clock after the sleep, at least minInterval after the previous stamp and no earlier than the entry time |
| RateLimit.FirstWaitDoesNotSleep | client.go:38-42 | the first Wait on a fresh limiter sleeps for nothing and stamps the entry time |
| RateLimit.StampsAfterStart | client.go:45-57 | the k-th of successive Wait stamps lies at least (k + 1) intervals after the starting stamp |
| RateLimit.StampsSpaced | client.go:45-57 | any two of N successive Wait stamps are at least minInterval apart, and stamps i < j at least (j - i) intervals apart |
| Transport.Headers | client.go:102-103 | a request carries exactly the X-Authentication header with the secret and Content-Type application/json |
| Transport.Settle | client.go:96-123 | exactly one of body and error is returned; a failure to create, send or read yields the matching transport error and never consults RaiseForError; a status >= 400 yields RaiseForError's error; a status < 400 yields the body verbatim |
| Transport.SuccessIsVerbatimBody | client.go:119-123 | a body is returned iff a response with status < 400 arrived, and it is that response's body unchanged |
| Transport.EventsOrder | client.go:92-106 | a call waits exactly once, first, then sends at most one request, and sends one iff the request could be created |
| Transport.Client.NewClient | client.go:60-62 | the default base URL is https://trade.mudrex.com/fapi/v1 and the default timeout 30 seconds, with a fresh rate limiter |
| Transport.Client.NewClientWithConfig | client.go:65-87 | the client keeps the given secret, base URL and timeout, and owns a fresh rate limiter |
| Transport.Client.DoRequest | client.go:90-124 | waits on the limiter before anything else, advancing the clock by exactly the limiter's sleep; sends one request to baseURL + path with the auth and content-type headers; returns Settle of the exchange; keeps the client invariant that every recorded limiter stamp is at most the current one and any two are at least minInterval apart |
| Transport.Client.Get | client.go:127-129 | a GET through DoRequest with no body: the same clock advance, stamp, trace and (body, error) result as DoRequest |
| Transport.Client.Post | client.go:132-134 | a POST through DoRequest with the given body: the same clock advance, stamp, trace and (body, error) result as DoRequest |
| Transport.Client.Patch | client.go:137-139 | a PATCH through DoRequest with the given body: the same clock advance, stamp, trace and (body, error) result as DoRequest |
| Transport.Client.Delete | client.go:142-144 | a DELETE through DoRequest with the given body: the same clock advance, stamp, trace and (body, error) result as DoRequest |

## Left out

- HTTP and byte I/O (`http.NewRequest`, `httpClient.Do`, `io.ReadAll`, `resp.Body.Close`): each call receives its outcome as an `Exchange` value. The `timeout` is stored but has no effect of its own; a timed-out round trip is a `SendFailed` or `ReadFailed` exchange, since the client's timeout also covers reading the body.
- `Close` and `CloseIdleConnections` release pooled connections. They change no modelled state and are not modelled.
- JSON decoding of the envelope (`json.Unmarshal`) is a library call. Its result arrives as the `parsed` field of a received exchange. The envelope's `data` payload is not modelled, because the transport never reads it.
- Real time: `time.Now` and `time.Sleep` become the `Clock` class. `Sleep` advances the clock by exactly the requested duration, so a sleep that overshoots is not modelled; it could only widen the spacing. The client's constructors require a clock reading of at least 0, that is, no earlier than Go's zero time.
- The `sync.Mutex` critical section in `Wait` and all concurrency: the model runs calls one after another, so spacing between concurrent callers is not proved.
- Error strings: `MudrexError.Error()` and the `fmt.Errorf` wrapping texts. A transport error keeps only the step that failed.
- The resource modules (wallet, assets, leverage, orders, positions, fees) and the client fields that point at them. They format paths and decode payloads through library calls.
- Request bodies are the content of the `io.Reader`, as an optional string; nil is `None`.
