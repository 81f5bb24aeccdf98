/** The SDK's exception hierarchy as one closed sum type, plus what the retry loop can catch. */
module Errors {
  import opened Values

  const BaseCode := "AGENT_CLIENT_ERROR"
  const DefaultAuthenticationMessage := "Authentication failed"
  const DefaultAuthorizationMessage := "Not authorized"
  const DefaultTimeoutMessage := "Request timeout"
  const DefaultRateLimitMessage := "Rate limit exceeded"
  const DefaultConnectionMessage := "Failed to connect"

  /** One variant per exception class; `ClientError` is `AgentClientError` itself, whose code,
      status and details are whatever its raiser passed. Messages, codes and details are kept as
      the JSON values they came from, because the classifier copies them out of response bodies. */
  datatype AgentError =
    | ClientError(message: Json, code: Json, statusCode: Option<int>, details: Json)
    | ValidationError(message: Json, details: Json)
    | AuthenticationError(message: Json)
    | AuthorizationError(message: Json)
    | NotFoundError(message: Json, resourceType: Option<string>, resourceId: Option<string>)
    | TimeoutError(message: Json, timeout: Option<int>)
    | RateLimitError(message: Json, retryAfter: Option<int>)
    | ServerError(message: Json, status: int)
    | NetworkError(message: Json, originalError: Option<string>)
    | ConnectionError(message: Json)
    | StreamError(message: Json)
  {
    /** The `code` attribute the class's constructor passes to the base class. */
    function Code(): Json {
      match this
      case ClientError(_, c, _, _) => c
      case ValidationError(_, _) => JStr("VALIDATION_ERROR")
      case AuthenticationError(_) => JStr("AUTHENTICATION_ERROR")
      case AuthorizationError(_) => JStr("AUTHORIZATION_ERROR")
      case NotFoundError(_, _, _) => JStr("NOT_FOUND")
      case TimeoutError(_, _) => JStr("TIMEOUT")
      case RateLimitError(_, _) => JStr("RATE_LIMIT")
      case ServerError(_, _) => JStr("SERVER_ERROR")
      case NetworkError(_, _) => JStr("NETWORK_ERROR")
      case ConnectionError(_) => JStr("CONNECTION_ERROR")
      case StreamError(_) => JStr("STREAM_ERROR")
    }

    /** The `status_code` attribute; None where the class passes no status. */
    function StatusCode(): Option<int> {
      match this
      case ClientError(_, _, s, _) => s
      case ValidationError(_, _) => Some(400)
      case AuthenticationError(_) => Some(401)
      case AuthorizationError(_) => Some(403)
      case NotFoundError(_, _, _) => Some(404)
      case TimeoutError(_, _) => Some(408)
      case RateLimitError(_, _) => Some(429)
      case ServerError(_, s) => Some(s)
      case NetworkError(_, _) => None
      case ConnectionError(_) => None
      case StreamError(_) => None
    }

    /** The `details` attribute; only the base class and ValidationError forward one. */
    function Details(): Json {
      match this
      case ClientError(_, _, _, d) => d
      case ValidationError(_, d) => d
      case _ => JNull
    }
  }

  /** `AgentClientError(message)` with every other argument left at its default. */
  function BaseError(message: Json): (e: AgentError)
    ensures e.Code() == JStr(BaseCode) && e.StatusCode() == None && e.Details() == JNull
    ensures e.message == message
  {
    ClientError(message, JStr(BaseCode), None, JNull)
  }

  /** `ServerError(message)`: the status defaults to 500. */
  function DefaultServerError(message: Json): (e: AgentError)
    ensures e.Code() == JStr("SERVER_ERROR") && e.StatusCode() == Some(500)
    ensures e.message == message && e.Details() == JNull
  {
    ServerError(message, 500)
  }

  /** A message argument that may be left out. */
  function MessageOr(message: Option<Json>, default: string): Json {
    if message.Some? then message.value else JStr(default)
  }

  /** `AuthenticationError(message=...)`: 401, with its own default message. */
  function NewAuthenticationError(message: Option<Json>): (e: AgentError)
    ensures e.Code() == JStr("AUTHENTICATION_ERROR") && e.StatusCode() == Some(401) && e.Details() == JNull
    ensures message.None? ==> e.message == JStr("Authentication failed")
    ensures message.Some? ==> e.message == message.value
  {
    AuthenticationError(MessageOr(message, DefaultAuthenticationMessage))
  }

  /** `AuthorizationError(message=...)`: 403, with its own default message. */
  function NewAuthorizationError(message: Option<Json>): (e: AgentError)
    ensures e.Code() == JStr("AUTHORIZATION_ERROR") && e.StatusCode() == Some(403) && e.Details() == JNull
    ensures message.None? ==> e.message == JStr("Not authorized")
    ensures message.Some? ==> e.message == message.value
  {
    AuthorizationError(MessageOr(message, DefaultAuthorizationMessage))
  }

  /** `TimeoutError(message=..., timeout=...)`: 408, keeping the optional timeout. */
  function NewTimeoutError(message: Option<Json>, timeout: Option<int>): (e: AgentError)
    ensures e.Code() == JStr("TIMEOUT") && e.StatusCode() == Some(408) && e.Details() == JNull
    ensures e.TimeoutError? && e.timeout == timeout
    ensures message.None? ==> e.message == JStr("Request timeout")
    ensures message.Some? ==> e.message == message.value
  {
    TimeoutError(MessageOr(message, DefaultTimeoutMessage), timeout)
  }

  /** `RateLimitError(message=..., retry_after=...)`: 429, keeping the optional retry-after. */
  function NewRateLimitError(message: Option<Json>, retryAfter: Option<int>): (e: AgentError)
    ensures e.Code() == JStr("RATE_LIMIT") && e.StatusCode() == Some(429) && e.Details() == JNull
    ensures e.RateLimitError? && e.retryAfter == retryAfter
    ensures message.None? ==> e.message == JStr("Rate limit exceeded")
    ensures message.Some? ==> e.message == message.value
  {
    RateLimitError(MessageOr(message, DefaultRateLimitMessage), retryAfter)
  }

  /** `ConnectionError(message=...)`: no status, with its own default message. */
  function NewConnectionError(message: Option<Json>): (e: AgentError)
    ensures e.Code() == JStr("CONNECTION_ERROR") && e.StatusCode() == None && e.Details() == JNull
    ensures message.None? ==> e.message == JStr("Failed to connect")
    ensures message.Some? ==> e.message == message.value
  {
    ConnectionError(MessageOr(message, DefaultConnectionMessage))
  }

  /** The class that a code names, for the codes the subclasses fix. */
  function KindOfCode(code: Json): Option<string> {
    match code
    case JStr(c) =>
      if c == "VALIDATION_ERROR" then Some("ValidationError")
      else if c == "AUTHENTICATION_ERROR" then Some("AuthenticationError")
      else if c == "AUTHORIZATION_ERROR" then Some("AuthorizationError")
      else if c == "NOT_FOUND" then Some("NotFoundError")
      else if c == "TIMEOUT" then Some("TimeoutError")
      else if c == "RATE_LIMIT" then Some("RateLimitError")
      else if c == "SERVER_ERROR" then Some("ServerError")
      else if c == "NETWORK_ERROR" then Some("NetworkError")
      else if c == "CONNECTION_ERROR" then Some("ConnectionError")
      else if c == "STREAM_ERROR" then Some("StreamError")
      else None
    case _ => None
  }

  /** The class name of an error, as `type(e).__name__` prints it. */
  function KindName(e: AgentError): string {
    match e
    case ClientError(_, _, _, _) => "AgentClientError"
    case ValidationError(_, _) => "ValidationError"
    case AuthenticationError(_) => "AuthenticationError"
    case AuthorizationError(_) => "AuthorizationError"
    case NotFoundError(_, _, _) => "NotFoundError"
    case TimeoutError(_, _) => "TimeoutError"
    case RateLimitError(_, _) => "RateLimitError"
    case ServerError(_, _) => "ServerError"
    case NetworkError(_, _) => "NetworkError"
    case ConnectionError(_) => "ConnectionError"
    case StreamError(_) => "StreamError"
  }

  /** Every subclass fixes a code of its own: reading the code back names the class. */
  lemma CodeNamesSubclass(e: AgentError)
    requires !e.ClientError?
    ensures KindOfCode(e.Code()) == Some(KindName(e))
  {
  }

  /** The subclasses that fix a status use the 4xx status of their condition (only the base
      class and ServerError can carry another), and of the subclasses only ValidationError
      keeps details. */
  lemma FixedStatuses(e: AgentError)
    requires !e.ClientError? && !e.ServerError?
    ensures e.StatusCode() == None || 400 <= e.StatusCode().value < 500
    ensures e.StatusCode() == None <==> e.NetworkError? || e.ConnectionError? || e.StreamError?
    ensures e.Details() != JNull ==> e.ValidationError?
  {
  }

  /** Of all subclasses, ServerError with any status included, only ValidationError keeps the
      details it was given. */
  lemma SubclassDetails(e: AgentError)
    requires !e.ClientError?
    ensures e.Details() != JNull ==> e.ValidationError?
    ensures e.ServerError? ==> e.Details() == JNull
  {
  }

  /** Anything `retry` can catch: an SDK error, or a Python exception the core lets escape. */
  datatype Fault =
    | SdkError(error: AgentError)
    | AttributeError     // `.get` on a decoded body that is not a dict
    | KeyError(key: string)  // `data[key]` on a dict without that key
    | TypeError          // subscripting a non-dict, `in` on a non-container, `raise None`
    | OtherException(name: string)  // any other exception, e.g. asyncio.TimeoutError, by class name

  /** What one call of an operation produced. */
  datatype Outcome<+T> = Ok(value: T) | Err(fault: Fault)
}
