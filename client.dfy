/** The request pipeline of `AgentClient` (`client.py`): configuration checks, headers, the
    status classifier, response interpretation, request ids and metrics, with the transport
    replaced by the responses it would deliver. */
module Client {
  import opened Values
  import opened Text
  import opened Errors
  import opened RetryLogic
  import opened Metrics
  import opened Pool

  const UserAgent := "ai-agent-sdk-python/1.0.0"
  const JsonContentType := "application/json"
  /** The scheme word of the bearer authentication scheme (section 2.1 of RFC 6750). */
  const BearerPrefix := "Bearer "

  /** What one attempt's transport call delivers. */
  datatype Response =
    | Reply(status: int, body: Json)     // a response whose body decoded as JSON
    | TransportFailure(message: string)  // an aiohttp.ClientError, with its text
    | TransportRaised(name: string)      // any other exception of the transport, by class name

  function Invalid(message: string): Fault {
    SdkError(ValidationError(JStr(message), JNull))
  }

  /** `_validate_url`. */
  function ValidateUrl(url: string): (r: Outcome<string>)
    ensures url == "" ==> r == Err(Invalid("api_url is required"))
    ensures url != "" && !StartsWith(url, "http") ==> r == Err(Invalid("api_url must start with http:// or https://"))
    ensures r.Ok? <==> StartsWith(url, "http")
    ensures r.Ok? ==> StartsWith(r.value, "http") && r.value[|r.value| - 1] != '/'
    ensures r.Ok? ==> |r.value| <= |url| && url[..|r.value|] == r.value
                      && forall i :: |r.value| <= i < |url| ==> url[i] == '/'
  {
    if url == "" then Err(Invalid("api_url is required"))
    else if !StartsWith(url, "http") then Err(Invalid("api_url must start with http:// or https://"))
    else
      StripKeepsScheme(url);
      Ok(StripTrailing(url, '/'))
  }

  /** Trailing slashes never reach into the "http" prefix: its last letter is not a slash. */
  lemma StripKeepsScheme(url: string)
    requires StartsWith(url, "http")
    ensures StartsWith(StripTrailing(url, '/'), "http")
  {
    var r := StripTrailing(url, '/');
    assert url[3] == "http"[3];
    assert |r| >= 4;
    assert r[..4] == url[..4];
  }

  /** A validated URL passes validation again unchanged. */
  lemma ValidateUrlIdempotent(url: string)
    requires ValidateUrl(url).Ok?
    ensures ValidateUrl(ValidateUrl(url).value) == ValidateUrl(url)
  {
    var u := ValidateUrl(url).value;
    assert StartsWith(u, "http");
    assert StripTrailing(u, '/') == u;
  }

  /** Stripping removes every trailing slash, and the check is a bare "http" prefix. */
  lemma ValidateUrlSamples()
    ensures ValidateUrl("http://x/") == Ok("http://x")
    ensures ValidateUrl("http://x///") == Ok("http://x")
    ensures ValidateUrl("httpx") == Ok("httpx")
    ensures ValidateUrl("ftp://x").Err?
  {
    assert "http://x/"[..|"http://x/"| - 1] == "http://x";
    assert "http://x///"[..|"http://x///"| - 1] == "http://x//";
    assert "http://x//"[..|"http://x//"| - 1] == "http://x/";
    assert "http://x"[..4] == "http";
    assert "httpx"[..4] == "http";
    assert "ftp://x"[0] != "http"[0];
  }

  /** `_validate_key`. */
  function ValidateKey(apiKey: string): (r: Outcome<string>)
    ensures r.Ok? <==> apiKey != ""
    ensures r.Ok? ==> r.value == apiKey
    ensures r.Err? ==> r == Err(Invalid("api_key is required"))
  {
    if apiKey == "" then Err(Invalid("api_key is required")) else Ok(apiKey)
  }

  /** `_get_headers`. */
  function Headers(apiKey: string): map<string, string> {
    map["Content-Type" := JsonContentType, "Authorization" := BearerPrefix + apiKey, "User-Agent" := UserAgent]
  }

  /** The credential a bearer `Authorization` value carries. */
  function BearerCredential(authorization: string): Option<string> {
    if StartsWith(authorization, BearerPrefix) then Some(authorization[|BearerPrefix|..]) else None
  }

  /** The headers are exactly the three fixed names, and the key travels unchanged as the bearer
      credential: reading the `Authorization` value back gives the key. */
  lemma HeadersCarryKey(apiKey: string)
    ensures Headers(apiKey).Keys == {"Content-Type", "Authorization", "User-Agent"}
    ensures Headers(apiKey)["Content-Type"] == "application/json"
    ensures Headers(apiKey)["User-Agent"] == "ai-agent-sdk-python/1.0.0"
    ensures BearerCredential(Headers(apiKey)["Authorization"]) == Some(apiKey)
  {
    var h := BearerPrefix + apiKey;
    assert h[..|BearerPrefix|] == BearerPrefix;
    assert h[|BearerPrefix|..] == apiKey;
  }

  /** The body's error object as `_handle_error_response` and `make_request` read it: a dict body
      whose `error` entry, if any, is a dict. Anything else makes a `.get` call fail. */
  predicate HasErrorObject(body: Json) {
    body.JObj? && Get(body.fields, "error", JObj(map[])).JObj?
  }

  function ErrorObject(body: Json): map<string, Json>
    requires HasErrorObject(body)
  {
    Get(body.fields, "error", JObj(map[])).fields
  }

  function ErrorMessage(body: Json): Json
    requires HasErrorObject(body)
  {
    Get(ErrorObject(body), "message", JStr("Unknown error"))
  }

  function ErrorCode(body: Json): Json
    requires HasErrorObject(body)
  {
    Get(ErrorObject(body), "code", JStr("UNKNOWN"))
  }

  function ErrorDetails(body: Json): Json
    requires HasErrorObject(body)
  {
    Get(ErrorObject(body), "details", JNull)
  }

  /** `_handle_error_response`: it always raises; the result is what it raises. */
  function HandleErrorResponse(status: int, body: Json): Fault {
    if !HasErrorObject(body) then AttributeError
    else
      var message := ErrorMessage(body);
      SdkError(
        if status == 400 then ValidationError(message, ErrorDetails(body))
        else if status == 401 then ClientError(message, JStr("UNAUTHORIZED"), Some(status), JNull)
        else if status == 403 then ClientError(message, JStr("FORBIDDEN"), Some(status), JNull)
        else if status == 404 then NotFoundError(message, None, None)
        else if status == 429 then ClientError(message, JStr("RATE_LIMIT"), Some(status), JNull)
        else if status >= 500 then ClientError(message, JStr("SERVER_ERROR"), Some(status), JNull)
        else ClientError(message, ErrorCode(body), Some(status), ErrorDetails(body)))
  }

  /** The classifier raises an SDK error exactly when the body has a readable error object; the
      error then carries the response's own status and the body's message, whatever the status. */
  lemma ClassifierKeepsStatusAndMessage(status: int, body: Json)
    ensures HandleErrorResponse(status, body).SdkError? <==> HasErrorObject(body)
    ensures !HasErrorObject(body) ==> HandleErrorResponse(status, body) == AttributeError
    ensures HasErrorObject(body) ==>
      HandleErrorResponse(status, body).error.StatusCode() == Some(status)
      && HandleErrorResponse(status, body).error.message == ErrorMessage(body)
  {
  }

  /** The status table (section 15.5 of RFC 9110 for the 4xx and 5xx classes, section 4 of
      RFC 6585 for 429): the code each status gets, and where the body's details survive. Only
      400 and 404 raise a subclass; 401, 403, 429 and 5xx raise the base class with the
      subclass's code word, not AuthenticationError, RateLimitError or ServerError. */
  lemma ClassifierTable(status: int, body: Json)
    requires HasErrorObject(body)
    ensures var e := HandleErrorResponse(status, body).error;
      && (status == 400 ==> e.ValidationError? && e.Code() == JStr("VALIDATION_ERROR") && e.Details() == ErrorDetails(body))
      && (status == 401 ==> e.ClientError? && e.Code() == JStr("UNAUTHORIZED") && e.Details() == JNull)
      && (status == 403 ==> e.ClientError? && e.Code() == JStr("FORBIDDEN") && e.Details() == JNull)
      && (status == 404 ==> e.NotFoundError? && e.Code() == JStr("NOT_FOUND") && e.Details() == JNull)
      && (status == 429 ==> e.ClientError? && e.Code() == JStr("RATE_LIMIT") && e.Details() == JNull)
      && (status >= 500 ==> e.ClientError? && e.Code() == JStr("SERVER_ERROR") && e.Details() == JNull)
      && (status !in {400, 401, 403, 404, 429} && status < 500 ==>
            e.ClientError? && e.Code() == ErrorCode(body) && e.Details() == ErrorDetails(body))
  {
  }

  /** The outcome of one `make_request` attempt, given what the transport delivered. */
  function Interpret(response: Response): Outcome<Json> {
    match response
    case TransportFailure(message) => Err(SdkError(ClientError(JStr(message), JStr("HTTP_ERROR"), None, JNull)))
    case TransportRaised(name) => Err(OtherException(name))
    case Reply(status, body) =>
      if status >= 400 then Err(HandleErrorResponse(status, body))
      else if body.JObj? && !Truthy(Get(body.fields, "success", JBool(true))) then
        if !HasErrorObject(body) then Err(AttributeError)
        else Err(SdkError(ClientError(ErrorMessage(body), ErrorCode(body), Some(status), ErrorDetails(body))))
      else if body.JObj? then Ok(Get(body.fields, "data", body))
      else Err(AttributeError)
  }

  /** An attempt succeeds exactly when the status is below 400 and the body is a dict whose
      `success` entry is absent or true; the payload is then `data` if present, else the body. */
  lemma InterpretSucceedsIff(response: Response)
    ensures Interpret(response).Ok? <==>
      response.Reply? && response.status < 400 && response.body.JObj?
      && Truthy(Get(response.body.fields, "success", JBool(true)))
    ensures Interpret(response).Ok? ==>
      Interpret(response).value == (if "data" in response.body.fields then response.body.fields["data"] else response.body)
  {
  }

  /** A body-level failure under 400 becomes a generic SDK error at the response's status
      carrying the body's message, code and details. */
  lemma InterpretApplicationFailure(status: int, body: Json)
    requires status < 400 && HasErrorObject(body)
    requires !Truthy(Get(body.fields, "success", JBool(true)))
    ensures Interpret(Reply(status, body)) ==
      Err(SdkError(ClientError(ErrorMessage(body), ErrorCode(body), Some(status), ErrorDetails(body))))
    ensures Interpret(Reply(status, body)).fault.error.StatusCode() == Some(status)
  {
  }

  /** The classification scenarios: a 404 with a message, a 200 with `success: false`, and a
      transport failure. */
  lemma ClassifierScenarios()
    ensures var body := JObj(map["success" := JBool(false),
                                 "error" := JObj(map["message" := JStr("no such agent"), "code" := JStr("NOT_FOUND")])]);
      Interpret(Reply(404, body)) == Err(SdkError(NotFoundError(JStr("no such agent"), None, None)))
    ensures var body := JObj(map["success" := JBool(false),
                                 "error" := JObj(map["message" := JStr("bad state"), "code" := JStr("X")])]);
      Interpret(Reply(200, body)) == Err(SdkError(ClientError(JStr("bad state"), JStr("X"), Some(200), JNull)))
    ensures Interpret(TransportFailure("refused")).fault.error.Code() == JStr("HTTP_ERROR")
    ensures Interpret(TransportFailure("refused")).fault.error.StatusCode() == None
    ensures Interpret(TransportRaised("TimeoutError")) == Err(OtherException("TimeoutError"))
  {
  }

  /** The attempt outcomes `retry` sees when the transport delivers `responses` in order. */
  function Interpretations(responses: seq<Response>): seq<Outcome<Json>> {
    seq(|responses|, i requires 0 <= i < |responses| => Interpret(responses[i]))
  }

  /** If every attempt's transport call fails, the caller sees the HTTP_ERROR of the last
      attempt made, unwrapped. */
  lemma TransportAlwaysFailing(responses: seq<Response>, config: RetryConfig)
    requires 0 <= config.maxRetries < |responses|
    requires forall i :: 0 <= i <= config.maxRetries ==> responses[i].TransportFailure?
    ensures RetryResult(Interpretations(responses), config.maxRetries)
         == Err(SdkError(ClientError(JStr(responses[config.maxRetries].message), JStr("HTTP_ERROR"), None, JNull)))
  {
    AlwaysFailing(Interpretations(responses), config.maxRetries);
  }

  /** `f"{request_id}-{timestamp}"`. */
  function RequestIdText(requestId: int, timestamp: string): string {
    IntToString(requestId) + "-" + timestamp
  }

  /** Ids made from different counter values differ, and the counter is the text before the
      first '-'. */
  lemma RequestIdsDistinct(a: nat, b: nat, t1: string, t2: string)
    requires a != b && a >= 1 && b >= 1
    ensures RequestIdText(a, t1)[..|NatToString(a)|] != RequestIdText(b, t2)[..|NatToString(b)|]
    ensures ParseDigits(RequestIdText(a, t1)[..|NatToString(a)|]) == a
    ensures RequestIdText(a, t1)[|NatToString(a)|] == '-'
  {
    assert RequestIdText(a, t1)[..|NatToString(a)|] == NatToString(a);
    assert RequestIdText(b, t2)[..|NatToString(b)|] == NatToString(b);
    NatToStringInjective(a, b);
    ParseNatToString(a);
  }

  /** The client's bookkeeping invariant on values: the metrics agree with the recorded
      latencies and one request id has been issued per recorded request. */
  ghost predicate Tracked(m: ClientMetrics, latencies: seq<real>, requestId: int) {
    Consistent(m, latencies) && requestId == m.totalRequests
  }

  /** The result of building a client. */
  datatype Construction = Built(client: AgentClient) | Rejected(fault: Fault)

  class AgentClient {
    const apiUrl: string
    const apiKey: string
    const timeout: int
    /** Stored by the constructor and never read. */
    const maxRetries: int
    const retryConfig: RetryConfig
    const poolConfig: PoolConfig
    const pool: ConnectionPool
    var metrics: ClientMetrics
    var requestId: int
    /** Every latency recorded so far, in order. */
    ghost var latencies: seq<real>

    /** The metrics agree with the latencies recorded so far. */
    ghost predicate MetricsValid()
      reads this
    {
      Consistent(metrics, latencies)
    }

    /** Between top-level requests one id has been issued per recorded request. */
    ghost predicate Valid()
      reads this
    {
      Tracked(metrics, latencies, requestId)
    }

    /** The body of `__init__` once both checks have passed. */
    constructor (apiUrl: string, apiKey: string, timeout: int, maxRetries: int,
                 retryConfig: Option<RetryConfig>, poolConfig: Option<PoolConfig>)
      requires ValidateUrl(apiUrl).Ok? && ValidateKey(apiKey).Ok?
      ensures this.apiUrl == ValidateUrl(apiUrl).value && this.apiKey == apiKey
      ensures this.timeout == timeout && this.maxRetries == maxRetries
      ensures this.retryConfig == (if retryConfig.Some? then retryConfig.value else Moderate)
      ensures this.poolConfig == (if poolConfig.Some? then poolConfig.value else DefaultPoolConfig)
      ensures fresh(pool) && pool.Valid() && pool.session == null && !pool.closed
      ensures pool.baseUrl == this.apiUrl && pool.headers == Headers(apiKey) && pool.config == this.poolConfig
      ensures metrics == InitialMetrics && requestId == 0 && latencies == []
    {
      var url := ValidateUrl(apiUrl).value;
      this.apiUrl := url;
      this.apiKey := apiKey;
      this.timeout := timeout;
      this.maxRetries := maxRetries;
      this.retryConfig := if retryConfig.Some? then retryConfig.value else Moderate;
      var pc := if poolConfig.Some? then poolConfig.value else DefaultPoolConfig;
      this.poolConfig := pc;
      pool := new ConnectionPool(url, Headers(apiKey), pc);
      metrics := InitialMetrics;
      requestId := 0;
      latencies := [];
    }

    /** `AgentClient(...)`: the URL is checked first, then the key; either failure is raised
        before anything else is built. */
    static method Create(apiUrl: string, apiKey: string, timeout: int, maxRetries: int,
                         retryConfig: Option<RetryConfig>, poolConfig: Option<PoolConfig>)
      returns (r: Construction)
      ensures ValidateUrl(apiUrl).Err? ==> r == Rejected(ValidateUrl(apiUrl).fault)
      ensures ValidateUrl(apiUrl).Ok? && ValidateKey(apiKey).Err? ==> r == Rejected(ValidateKey(apiKey).fault)
      ensures r.Built? <==> ValidateUrl(apiUrl).Ok? && ValidateKey(apiKey).Ok?
      ensures r.Built? ==> fresh(r.client) && r.client.Valid() && fresh(r.client.pool)
      ensures r.Built? ==> r.client.apiUrl == ValidateUrl(apiUrl).value && r.client.apiKey == apiKey
      ensures r.Built? ==> r.client.metrics == InitialMetrics && r.client.requestId == 0
      ensures r.Built? ==> r.client.timeout == timeout && r.client.maxRetries == maxRetries
      ensures r.Built? ==> r.client.retryConfig == (if retryConfig.Some? then retryConfig.value else Moderate)
      ensures r.Built? ==> r.client.poolConfig == (if poolConfig.Some? then poolConfig.value else DefaultPoolConfig)
      ensures r.Built? ==> r.client.pool.Valid() && r.client.pool.session == null && !r.client.pool.closed
      ensures r.Built? ==> r.client.pool.baseUrl == r.client.apiUrl && r.client.pool.headers == Headers(apiKey)
      ensures r.Built? ==> r.client.pool.config == r.client.poolConfig
    {
      var url := ValidateUrl(apiUrl);
      if url.Err? {
        return Rejected(url.fault);
      }
      var key := ValidateKey(apiKey);
      if key.Err? {
        return Rejected(key.fault);
      }
      var c := new AgentClient(apiUrl, apiKey, timeout, maxRetries, retryConfig, poolConfig);
      InitialConsistent(c.metrics, c.latencies);
      r := Built(c);
    }

    /** `_generate_request_id`: the counter goes up by exactly one per call. */
    method GenerateRequestId(timestamp: string) returns (id: string)
      modifies this
      ensures requestId == old(requestId) + 1
      ensures id == RequestIdText(requestId, timestamp)
      ensures metrics == old(metrics) && latencies == old(latencies)
    {
      requestId := requestId + 1;
      id := RequestIdText(requestId, timestamp);
    }

    /** `_update_metrics`, field by field as the source updates them. */
    method UpdateMetrics(success: bool, latency: real)
      requires MetricsValid()
      modifies this
      ensures MetricsValid()
      ensures metrics == Recorded(old(metrics), success, latency)
      ensures latencies == old(latencies) + [latency]
      ensures requestId == old(requestId)
    {
      metrics := metrics.(totalRequests := metrics.totalRequests + 1);
      if success {
        metrics := metrics.(successfulRequests := metrics.successfulRequests + 1);
      } else {
        metrics := metrics.(failedRequests := metrics.failedRequests + 1);
        metrics := metrics.(totalErrors := metrics.totalErrors + 1);
      }
      var avg := metrics.averageLatency;
      metrics := metrics.(averageLatency := (avg * (metrics.totalRequests - 1) as real + latency) / metrics.totalRequests as real);
      metrics := metrics.(successRate := Percentage(metrics.successfulRequests, metrics.totalRequests));
      metrics := metrics.(errorRate := Percentage(metrics.failedRequests, metrics.totalRequests));
      RecordKeepsConsistent(old(metrics), latencies, success, latency);
      latencies := latencies + [latency];
    }

    /** `initialize`. */
    method Initialize()
      modifies pool
      ensures old(pool.session) == null ==> pool.session != null && fresh(pool.session)
      ensures old(pool.session) == null ==> pool.session.headers == pool.headers && !pool.session.closed
      ensures old(pool.session) != null ==> pool.session == old(pool.session)
      ensures pool.closed == old(pool.closed)
    {
      pool.Initialize();
    }

    /** `close`. */
    method Close()
      modifies pool, pool.session
      ensures pool.session == old(pool.session)
      ensures old(pool.session) != null ==> pool.closed && pool.session.closed
      ensures old(pool.session) == null ==> pool.closed == old(pool.closed)
    {
      pool.Close();
    }

    /** `request(method, path, data)`, where attempt i's transport call delivers `responses[i]`,
        `latency` is the time the whole call took, and `idTime` and `errorTime` are the two clock
        readings, for the request id and for the last error. It initialises the pool if it has
        no session, issues one id, retries under the client's configuration, and records the
        outcome exactly once; a failure is also stored as the last error and
        re-raised unchanged. */
    method Request(responses: seq<Response>, latency: real, idTime: string, errorTime: string) returns (r: Outcome<Json>)
      requires Valid()
      requires retryConfig.maxRetries < |responses|
      modifies this, pool
      ensures Valid()
      ensures requestId == old(requestId) + 1
      ensures r == RetryResult(Interpretations(responses), retryConfig.maxRetries)
      ensures latencies == old(latencies) + [latency]
      ensures r.Ok? ==> metrics == Recorded(old(metrics), true, latency)
      ensures r.Err? ==> metrics == Recorded(old(metrics), false, latency).(lastError := Some(LastError(r.fault, errorTime)))
      ensures pool.session != null && pool.closed == old(pool.closed)
      ensures old(pool.session) != null ==> pool.session == old(pool.session)
      ensures old(pool.session) == null ==>
        fresh(pool.session) && pool.session.headers == pool.headers && !pool.session.closed
    {
      if pool.session == null {
        Initialize();
      }
      var id := GenerateRequestId(idTime);
      var outcome, calls, notices, sleeps := Retry(Interpretations(responses), retryConfig, false);
      if outcome.Ok? {
        UpdateMetrics(true, latency);
      } else {
        UpdateMetrics(false, latency);
        metrics := metrics.(lastError := Some(LastError(outcome.fault, errorTime)));
      }
      r := outcome;
    }

    /** `get_metrics`. */
    function GetMetrics(): (m: ClientMetrics)
      reads this
      requires Valid()
      ensures m.successfulRequests + m.failedRequests == m.totalRequests == requestId
    {
      metrics
    }
  }
}
