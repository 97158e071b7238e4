/**
 * The API client's transport: configuration, the four HTTP verbs and
 * doRequest, which waits on the rate limiter, builds one request, performs
 * one round trip and classifies the response.
 *
 * The network is an oracle: each call is handed the `Exchange` the HTTP
 * stack produced for it. A ghost trace records what the client did, in order.
 */
module Transport {
  import opened Wrappers
  import opened Errors
  import opened RateLimit

  const DefaultBaseURL: string := "https://trade.mudrex.com/fapi/v1"
  const DefaultTimeout: int := 30 * Second
  const AuthHeader: string := "X-Authentication"
  const ContentTypeHeader: string := "Content-Type"
  const JsonContentType: string := "application/json"

  /** An outbound HTTP request; `body` is None for a nil io.Reader. */
  datatype Request = Request(verb: string, url: string, headers: map<string, string>, body: Option<string>)

  /**
   * What the HTTP stack made of one call: http.NewRequest failed, Do failed
   * (connection, TLS, timeout), reading the body failed, or a response
   * arrived. `parsed` is what decoding the body as the envelope gives.
   */
  datatype Exchange =
    | CreateFailed
    | SendFailed
    | ReadFailed
    | Received(status: int, body: string, parsed: Option<APIResponse>)

  /** The step of doRequest at which a transport failure happened. */
  datatype Stage = CreateRequest | SendRequest | ReadResponse

  /** The error doRequest returns: a wrapped transport failure, or an API error. */
  datatype RequestError = TransportError(stage: Stage) | ApiError(err: MudrexError)

  /** What the client did, as the venue and the clock see it. */
  datatype Event = Waited(stamp: int) | Sent(request: Request)

  /** The headers every request carries. */
  function Headers(apiSecret: string): (h: map<string, string>)
    ensures h.Keys == {AuthHeader, ContentTypeHeader}
    ensures h[AuthHeader] == apiSecret && h[ContentTypeHeader] == JsonContentType
  {
    map[AuthHeader := apiSecret, ContentTypeHeader := JsonContentType]
  }

  /** The events of one doRequest: the limiter's stamp, then the request unless creating it failed. */
  function Events(stamp: int, request: Request, exchange: Exchange): seq<Event>
  {
    [Waited(stamp)] + (if exchange.CreateFailed? then [] else [Sent(request)])
  }

  /** Every limiter stamp recorded in `trace` is at most `last`. */
  ghost predicate StampsUpTo(trace: seq<Event>, last: int) {
    forall k :: 0 <= k < |trace| && trace[k].Waited? ==> trace[k].stamp <= last
  }

  /** Any two limiter stamps recorded in `trace` are at least MinInterval apart, in order. */
  ghost predicate Spaced(trace: seq<Event>) {
    forall i, j :: 0 <= i < j < |trace| && trace[i].Waited? && trace[j].Waited? ==>
      trace[j].stamp - trace[i].stamp >= MinInterval
  }

  /** The (body, error) pair doRequest returns for an exchange. */
  function Settle(exchange: Exchange): (r: (Option<string>, Option<RequestError>))
    ensures r.0.Some? != r.1.Some?
    ensures exchange.CreateFailed? ==> r.1 == Some(TransportError(CreateRequest))
    ensures exchange.SendFailed? ==> r.1 == Some(TransportError(SendRequest))
    ensures exchange.ReadFailed? ==> r.1 == Some(TransportError(ReadResponse))
    ensures exchange.Received? && exchange.status < 400 ==> r.0 == Some(exchange.body)
    ensures exchange.Received? && exchange.status >= 400 ==>
      r.1.Some? && r.1.value.ApiError? && r.1.value.err.status == exchange.status &&
      Some(r.1.value.err) == RaiseForError(exchange.status, exchange.body, exchange.parsed)
  {
    match exchange
    case CreateFailed => (None, Some(TransportError(CreateRequest)))
    case SendFailed => (None, Some(TransportError(SendRequest)))
    case ReadFailed => (None, Some(TransportError(ReadResponse)))
    case Received(status, body, parsed) =>
      var e := RaiseForError(status, body, parsed);
      if e.Some? then (None, Some(ApiError(e.value))) else (Some(body), None)
  }

  class Client {
    const apiSecret: string
    const baseURL: string
    const timeout: int
    const rateLimiter: RateLimiter
    /** The process clock that the rate limiter reads. */
    const clock: Clock
    ghost var trace: seq<Event>

    /** The limiter's interval is the default, its stamp is not in the future, and the
        stamps in the trace are at most that stamp and pairwise minInterval apart. */
    ghost predicate Valid()
      reads this, rateLimiter, clock
    {
      rateLimiter.minInterval == MinInterval && rateLimiter.lastRequestTime <= clock.now &&
      StampsUpTo(trace, rateLimiter.lastRequestTime) && Spaced(trace)
    }

    /** NewClient: the production endpoint and a 30-second timeout. */
    constructor NewClient(apiSecret: string, clock: Clock)
      requires clock.now >= 0
      ensures Valid() && fresh(rateLimiter) && this.clock == clock
      ensures this.apiSecret == apiSecret && baseURL == DefaultBaseURL && timeout == DefaultTimeout
      ensures rateLimiter.lastRequestTime == 0 && trace == []
    {
      this.apiSecret := apiSecret;
      baseURL := DefaultBaseURL;
      timeout := DefaultTimeout;
      rateLimiter := new RateLimiter.NewRateLimiter();
      this.clock := clock;
      trace := [];
    }

    constructor NewClientWithConfig(apiSecret: string, baseURL: string, timeout: int, clock: Clock)
      requires clock.now >= 0
      ensures Valid() && fresh(rateLimiter) && this.clock == clock
      ensures this.apiSecret == apiSecret && this.baseURL == baseURL && this.timeout == timeout
      ensures rateLimiter.lastRequestTime == 0 && trace == []
    {
      this.apiSecret := apiSecret;
      this.baseURL := baseURL;
      this.timeout := timeout;
      rateLimiter := new RateLimiter.NewRateLimiter();
      this.clock := clock;
      trace := [];
    }

    /** doRequest */
    method DoRequest(verb: string, path: string, body: Option<string>, exchange: Exchange)
      returns (respBody: Option<string>, err: Option<RequestError>)
      requires Valid()
      modifies this, rateLimiter, clock
      ensures Valid()
      ensures clock.now == old(clock.now) + SleepFor(MinInterval, old(rateLimiter.lastRequestTime), old(clock.now))
      ensures rateLimiter.lastRequestTime == clock.now
      ensures rateLimiter.lastRequestTime >= old(rateLimiter.lastRequestTime) + MinInterval
      ensures trace == old(trace) + Events(clock.now, Request(verb, baseURL + path, Headers(apiSecret), body), exchange)
      ensures (respBody, err) == Settle(exchange)
    {
      ghost var before := trace;
      rateLimiter.Wait(clock);
      trace := trace + [Waited(rateLimiter.lastRequestTime)];
      assert forall k :: 0 <= k < |before| ==> trace[k] == before[k];

      var url := baseURL + path;
      if exchange.CreateFailed? {
        return None, Some(TransportError(CreateRequest));
      }
      var headers: map<string, string> := map[];
      headers := headers[AuthHeader := apiSecret];
      headers := headers[ContentTypeHeader := JsonContentType];
      var request := Request(verb, url, headers, body);

      trace := trace + [Sent(request)];
      if exchange.SendFailed? {
        return None, Some(TransportError(SendRequest));
      }
      if exchange.ReadFailed? {
        return None, Some(TransportError(ReadResponse));
      }

      var apiErr := RaiseForError(exchange.status, exchange.body, exchange.parsed);
      if apiErr.Some? {
        return None, Some(ApiError(apiErr.value));
      }
      return Some(exchange.body), None;
    }

    /** Get: a GET with no body. */
    method Get(path: string, exchange: Exchange) returns (respBody: Option<string>, err: Option<RequestError>)
      requires Valid()
      modifies this, rateLimiter, clock
      ensures Valid()
      ensures clock.now == old(clock.now) + SleepFor(MinInterval, old(rateLimiter.lastRequestTime), old(clock.now))
      ensures rateLimiter.lastRequestTime == clock.now
      ensures rateLimiter.lastRequestTime >= old(rateLimiter.lastRequestTime) + MinInterval
      ensures trace == old(trace) + Events(clock.now, Request("GET", baseURL + path, Headers(apiSecret), None), exchange)
      ensures (respBody, err) == Settle(exchange)
    {
      respBody, err := DoRequest("GET", path, None, exchange);
    }

    method Post(path: string, body: Option<string>, exchange: Exchange) returns (respBody: Option<string>, err: Option<RequestError>)
      requires Valid()
      modifies this, rateLimiter, clock
      ensures Valid()
      ensures clock.now == old(clock.now) + SleepFor(MinInterval, old(rateLimiter.lastRequestTime), old(clock.now))
      ensures rateLimiter.lastRequestTime == clock.now
      ensures rateLimiter.lastRequestTime >= old(rateLimiter.lastRequestTime) + MinInterval
      ensures trace == old(trace) + Events(clock.now, Request("POST", baseURL + path, Headers(apiSecret), body), exchange)
      ensures (respBody, err) == Settle(exchange)
    {
      respBody, err := DoRequest("POST", path, body, exchange);
    }

    method Patch(path: string, body: Option<string>, exchange: Exchange) returns (respBody: Option<string>, err: Option<RequestError>)
      requires Valid()
      modifies this, rateLimiter, clock
      ensures Valid()
      ensures clock.now == old(clock.now) + SleepFor(MinInterval, old(rateLimiter.lastRequestTime), old(clock.now))
      ensures rateLimiter.lastRequestTime == clock.now
      ensures rateLimiter.lastRequestTime >= old(rateLimiter.lastRequestTime) + MinInterval
      ensures trace == old(trace) + Events(clock.now, Request("PATCH", baseURL + path, Headers(apiSecret), body), exchange)
      ensures (respBody, err) == Settle(exchange)
    {
      respBody, err := DoRequest("PATCH", path, body, exchange);
    }

    method Delete(path: string, body: Option<string>, exchange: Exchange) returns (respBody: Option<string>, err: Option<RequestError>)
      requires Valid()
      modifies this, rateLimiter, clock
      ensures Valid()
      ensures clock.now == old(clock.now) + SleepFor(MinInterval, old(rateLimiter.lastRequestTime), old(clock.now))
      ensures rateLimiter.lastRequestTime == clock.now
      ensures rateLimiter.lastRequestTime >= old(rateLimiter.lastRequestTime) + MinInterval
      ensures trace == old(trace) + Events(clock.now, Request("DELETE", baseURL + path, Headers(apiSecret), body), exchange)
      ensures (respBody, err) == Settle(exchange)
    {
      respBody, err := DoRequest("DELETE", path, body, exchange);
    }
  }

  /** A successful call hands back the response body unmodified, and only below status 400. */
  lemma SuccessIsVerbatimBody(exchange: Exchange)
    ensures Settle(exchange).0.Some? <==> exchange.Received? && exchange.status < 400
    ensures Settle(exchange).0.Some? ==> Settle(exchange).0.value == exchange.body
  {
  }

  /** Every call waits exactly once, first, and sends at most one request, after the wait. */
  lemma EventsOrder(stamp: int, request: Request, exchange: Exchange)
    ensures var ev := Events(stamp, request, exchange);
      1 <= |ev| <= 2 && ev[0] == Waited(stamp) &&
      (forall k :: 0 < k < |ev| ==> ev[k] == Sent(request)) &&
      (|ev| == 2 <==> !exchange.CreateFailed?)
  {
  }
}
