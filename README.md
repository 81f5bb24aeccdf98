# AI agent SDK client core, modelled in Dafny

This project models the request core of the Python SDK for the AI agent platform. It covers:

- the exception hierarchy (`errors.py`);
- exponential backoff and the bounded retry loop (`retry.py`);
- the connection pool's session lifecycle (`pool.py`);
- the `AgentClient` (`client.py`): URL and key validation, request headers, request ids, the
  metrics update, the HTTP error classifier, and one `request` run end to end through the retry
  loop;
- the agent and task managers (`managers.py`): list-query building, request payloads,
  conversion of response bodies into `Agent` and `Task` records, the capability check, and the
  `wait_for_completion` polling loop.

Modules: one per core source file; a separate one for the client's metrics, which
`client.py` updates; and two shared ones:

| file | module | models |
|---|---|---|
| `values.dfy` | `Values` | decoded JSON values, Python truthiness, `dict.get` |
| `text.dfy` | `Text` | string helpers: `startswith`, `in`, ASCII `lower`, `rstrip`, `join`, `split`, integer rendering |
| `errors.dfy` | `Errors` | the exception classes as one sum type; what the retry loop can catch |
| `retry.dfy` | `RetryLogic` | `RetryConfig`, the presets, `calculate_delay`, `retry`, `is_retryable_error` |
| `metrics.dfy` | `Metrics` | `ClientMetrics` (from `types.py`) and the invariant `_update_metrics` keeps |
| `pool.dfy` | `Pool` | `PoolConfig` and `ConnectionPool` as classes with mutable session state |
| `client.dfy` | `Client` | `AgentClient` as a class; validation, headers, error classification |
| `managers.dfy` | `Managers` | `AgentsManager` and `TasksManager` operations |

Python's I/O is turned into parameters:

- A network call becomes the sequence of responses (or outcomes) that its successive
  invocations return. `AgentClient.Request` and `RetryLogic.Retry` consume such a sequence.
- The clock becomes a parameter:
  - the measured latency is a real number;
  - each timestamp is a string (a request takes two readings: its id and its last error);
  - each poll of `wait_for_completion` carries the elapsed time at which it was taken.
- An exception is a `Fault` value returned in an `Outcome`:
  - SDK errors;
  - `AttributeError`, `KeyError` and `TypeError`, which the source lets escape on malformed data;
  - any other `Exception` subclass the transport raises, by class name, which the source lets
    escape unwrapped.

## Model

| member | source | states |
|---|---|---|
| Errors.BaseError | src/sdk/python/ai_agent/errors.py:11-22 | the base error keeps its message; its code defaults to AGENT_CLIENT_ERROR, with no status and no details |
| Errors.DefaultServerError | src/sdk/python/ai_agent/errors.py:91-92 | a ServerError given no status has code SERVER_ERROR and status 500, and keeps the given message |
| Errors.NewAuthenticationError | src/sdk/python/ai_agent/errors.py:43-44 | code AUTHENTICATION_ERROR and status 401; message "Authentication failed" when none is given, otherwise the given one |
| Errors.NewAuthorizationError | src/sdk/python/ai_agent/errors.py:50-51 | code AUTHORIZATION_ERROR and status 403; message "Not authorized" when none is given, otherwise the given one |
| Errors.NewTimeoutError | src/sdk/python/ai_agent/errors.py:71-75 | code TIMEOUT and status 408; keeps the timeout; default message "Request timeout" when none is given, otherwise the given one |
| Errors.NewRateLimitError | src/sdk/python/ai_agent/errors.py:81-85 | code RATE_LIMIT and status 429; keeps retry_after; default message "Rate limit exceeded" when none is given, otherwise the given one |
| Errors.NewConnectionError | src/sdk/python/ai_agent/errors.py:108-109 | code CONNECTION_ERROR and no status; default message "Failed to connect" when none is given, otherwise the given one |
| Errors.AgentError.Code | src/sdk/python/ai_agent/errors.py:37-116 | definition: the code each subclass passes to `super().__init__` (lines 37, 44, 51, 65, 75, 85, 92, 102, 109, 116); the base class keeps the given one |
| Errors.AgentError.StatusCode | src/sdk/python/ai_agent/errors.py:37-116 | definition: the status each subclass passes (400, 401, 403, 404, 408, 429, ServerError's own, none for network, connection and stream) |
| Errors.AgentError.Details | src/sdk/python/ai_agent/errors.py:11-37 | definition: only the base class and ValidationError forward details |
| Errors.CodeNamesSubclass | src/sdk/python/ai_agent/errors.py:33-116 | every subclass fixes a code of its own, so reading the code back identifies the class |
| Errors.FixedStatuses | src/sdk/python/ai_agent/errors.py:33-116 | apart from ServerError, the statuses a subclass fixes are all 4xx; exactly the network, connection and stream errors carry none |
| Errors.SubclassDetails | src/sdk/python/ai_agent/errors.py:33-116 | of all the subclasses, ServerError at any status included, only ValidationError keeps details |
| RetryLogic.CalculateDelay | src/sdk/python/ai_agent/retry.py:28-36 | the delay never exceeds max_delay; it is either the cap or `initial * multiplier^(attempt-1)`, and it is the latter whenever that does not exceed the cap |
| RetryLogic.PowNondecreasing | src/sdk/python/ai_agent/retry.py:35 | with a multiplier of at least 1, higher powers are never smaller |
| RetryLogic.FirstDelay | src/sdk/python/ai_agent/retry.py:35-36 | the first retry waits min(initial_delay, max_delay) |
| RetryLogic.DelayNondecreasing | src/sdk/python/ai_agent/retry.py:28-36 | for a non-negative initial delay and a multiplier of at least 1, later attempts never wait less |
| RetryLogic.DelaySaturates | src/sdk/python/ai_agent/retry.py:28-36 | once the exponential term reaches the cap, every later delay equals the cap |
| RetryLogic.PresetSchedules | src/sdk/python/ai_agent/retry.py:106-116 | the delay schedules of AGGRESSIVE (50, 100, 200, 400, 800 ms), MODERATE (100, 200, 400 ms) and CONSERVATIVE (500 ms); `RetryConfig()` with no arguments equals MODERATE |
| RetryLogic.AggressiveCapped | src/sdk/python/ai_agent/retry.py:28-36 | calculate_delay with AGGRESSIVE's parameters gives the 5000 ms cap from attempt 8 on; retry itself never asks for it, because it stops after 5 attempts |
| RetryLogic.NoRetryNeverWaits | src/sdk/python/ai_agent/retry.py:118-120 | the NONE preset never waits |
| RetryLogic.RetryResult | src/sdk/python/ai_agent/retry.py:50-74 | definition: the outcome of the last call made, or TypeError from `raise None` when no call is made; AlwaysFailing, SucceedsOnCall and Retry relate it to the loop |
| RetryLogic.FirstOk | src/sdk/python/ai_agent/retry.py:50-57 | the index of the first successful call; every call before it failed |
| RetryLogic.Attempts | src/sdk/python/ai_agent/retry.py:50-57 | retry makes no call iff max_retries < 0 and at most max_retries + 1 calls; every call but the last failed; stopping early means the last call succeeded |
| RetryLogic.AlwaysFailing | src/sdk/python/ai_agent/retry.py:50-57 | an operation that always fails is called max_retries + 1 times and its last error is re-raised unchanged |
| RetryLogic.SucceedsOnCall | src/sdk/python/ai_agent/retry.py:50-52 | an operation that first succeeds on call k is called exactly k times and that value is returned |
| RetryLogic.NoRetrySingleAttempt | src/sdk/python/ai_agent/retry.py:118-120 | under NONE exactly one call is made and its outcome is the result |
| RetryLogic.Retry | src/sdk/python/ai_agent/retry.py:39-74 | the loop makes Attempts calls and returns RetryResult; it sleeps delay/1000 s after every failed call but the last; on_retry receives (attempt, delay, error) for exactly those failures and never fires without a callback |
| RetryLogic.IsRetryableError | src/sdk/python/ai_agent/retry.py:77-100 | definition: the four pattern groups, tested on the lower-cased message in source order; the lemmas below state its properties |
| RetryLogic.AnyFiveIsRetryable | src/sdk/python/ai_agent/retry.py:88-90 | any message containing the digit 5 is retryable |
| RetryLogic.RetryableIgnoresCase | src/sdk/python/ai_agent/retry.py:79 | classification ignores case: a message and its lower-cased form are classified alike |
| RetryLogic.Status503Subsumed | src/sdk/python/ai_agent/retry.py:77-100 | retryable iff one of the listed substrings occurs; the "503" test never decides, because "503" contains "5" |
| RetryLogic.RetryableSampleNetwork | src/sdk/python/ai_agent/retry.py:82-86 | "Connection Refused by host" is retryable |
| RetryLogic.RetryableSampleRejected | src/sdk/python/ai_agent/retry.py:100 | the empty message is not retryable |
| RetryLogic.RetryableSampleQuirk | src/sdk/python/ai_agent/retry.py:88-90 | "field 5 is invalid" is retryable |
| Metrics.Recorded | src/sdk/python/ai_agent/client.py:85-105 | definition: the metrics after one `_update_metrics`; RecordedCounts and RecordKeepsConsistent state its properties |
| Metrics.InitialConsistent | src/sdk/python/ai_agent/types.py:132-143 | fresh metrics satisfy the metrics invariant with no latencies recorded |
| Metrics.RecordedCounts | src/sdk/python/ai_agent/client.py:85-93 | one update adds exactly one request, as a success or as a failure; it counts an error exactly on failure and leaves last_error alone |
| Metrics.MeanStep | src/sdk/python/ai_agent/client.py:95-98 | the incremental-average formula yields the mean of the extended list |
| Metrics.RecordKeepsConsistent | src/sdk/python/ai_agent/client.py:85-105 | _update_metrics preserves the invariant: the counters agree, the average is the mean of every latency, and the rates are derived from the counts |
| Metrics.Percentage | src/sdk/python/ai_agent/client.py:100-105 | definition: part / total * 100, for a positive total |
| Metrics.PercentagesComplement | src/sdk/python/ai_agent/client.py:100-105 | two counts making up a positive total give percentages that sum to 100, each within [0, 100] |
| Metrics.RatesComplement | src/sdk/python/ai_agent/client.py:100-105 | after any updates, success_rate + error_rate == 100, each within [0, 100] |
| Pool.Session.Close | src/sdk/python/ai_agent/pool.py:54 | closing a session marks it closed |
| Pool.ConnectionPool.constructor | src/sdk/python/ai_agent/pool.py:24-35 | a new pool keeps its URL, headers and config, limits its connector to max_connections, and has no session and is not closed |
| Pool.ConnectionPool.Initialize | src/sdk/python/ai_agent/pool.py:37-43 | creates a fresh, open session with the pool's headers only when there is none; otherwise nothing changes |
| Pool.ConnectionPool.Acquire | src/sdk/python/ai_agent/pool.py:45-49 | returns the pool's single session, creating it first when missing; the closed flag is never consulted |
| Pool.ConnectionPool.Close | src/sdk/python/ai_agent/pool.py:51-56 | an existing session is closed and the pool is flagged closed, keeping the reference; a pool without a session is unchanged |
| Pool.ConnectionPool.Stats | src/sdk/python/ai_agent/pool.py:58-61 | reports the connector limit, which is max_connections |
| Pool.LifecycleScenario | src/sdk/python/ai_agent/pool.py:37-56 | initialising twice keeps one session; acquire after close returns that same, closed session |
| Client.ValidateUrl | src/sdk/python/ai_agent/client.py:56-63 | the empty URL and a URL not starting with "http" are rejected, each with its own message; the URL is accepted iff it starts with "http"; the result is the longest prefix without trailing slashes, and it still starts with "http" |
| Client.StripKeepsScheme | src/sdk/python/ai_agent/client.py:61-63 | stripping trailing slashes from a URL that starts with "http" keeps the scheme prefix |
| Client.ValidateUrlIdempotent | src/sdk/python/ai_agent/client.py:56-63 | validating an already validated URL returns it unchanged |
| Client.ValidateUrlSamples | src/sdk/python/ai_agent/client.py:56-63 | "http://x/" and "http://x///" become "http://x"; "httpx" is accepted; "ftp://x" is rejected |
| Client.ValidateKey | src/sdk/python/ai_agent/client.py:65-70 | a key is accepted iff it is non-empty, and then returned unchanged; the empty key is rejected with "api_key is required" |
| Client.Headers | src/sdk/python/ai_agent/client.py:72-78 | definition: the three request headers; HeadersCarryKey states their keys and values |
| Client.HeadersCarryKey | src/sdk/python/ai_agent/client.py:72-78 | exactly three headers; JSON content type and the SDK's user agent; the bearer credential read back from Authorization is the API key |
| Client.HandleErrorResponse | src/sdk/python/ai_agent/client.py:171-191 | definition: what `_handle_error_response` raises; ClassifierKeepsStatusAndMessage and ClassifierTable state its properties |
| Client.ClassifierKeepsStatusAndMessage | src/sdk/python/ai_agent/client.py:171-191 | the classifier raises an SDK error iff the body's error entry supports `.get`, else AttributeError; the raised error carries the body's message (default "Unknown error") |
| Client.ClassifierTable | src/sdk/python/ai_agent/client.py:178-191 | the status table: 400 ValidationError with details; 404 NotFoundError; 401 UNAUTHORIZED, 403 FORBIDDEN, 429 RATE_LIMIT and 5xx SERVER_ERROR as the base class, not a subclass; otherwise the base class with the body's code and details |
| Client.Interpret | src/sdk/python/ai_agent/client.py:127-154 | definition: the outcome of one `make_request` attempt; InterpretSucceedsIff, InterpretApplicationFailure and ClassifierScenarios state its properties |
| Client.InterpretSucceedsIff | src/sdk/python/ai_agent/client.py:127-154 | one attempt succeeds iff the reply is below 400 and its body does not report success false (a non-dict body fails on `.get`); a success returns body["data"], or the body when there is no data |
| Client.InterpretApplicationFailure | src/sdk/python/ai_agent/client.py:143-150 | a body below 400 that reports failure raises the base error with the body's message, code and details and the HTTP status |
| Client.ClassifierScenarios | src/sdk/python/ai_agent/client.py:140-154 | concrete replies: a 404 becomes NotFoundError; a 200 reporting failure becomes a base error with status 200; an aiohttp error becomes HTTP_ERROR with no status; any other transport exception passes through unwrapped |
| Client.TransportAlwaysFailing | src/sdk/python/ai_agent/client.py:153-160 | when every attempt fails in transport, the request ends with the last attempt's HTTP_ERROR |
| Client.RequestIdText | src/sdk/python/ai_agent/client.py:83 | definition: the counter in decimal, a dash, then the timestamp |
| Client.RequestIdsDistinct | src/sdk/python/ai_agent/client.py:80-83 | the id is the counter, a dash and the timestamp; distinct counters give distinct id prefixes, and the counter can be read back from the id |
| Client.AgentClient.constructor | src/sdk/python/ai_agent/client.py:30-51 | stores the validated URL and key; retry_config defaults to MODERATE and pool_config to PoolConfig(); a fresh pool with the client's headers and no session; zeroed metrics and request id |
| Client.AgentClient.Create | src/sdk/python/ai_agent/client.py:30-51 | construction fails with the URL's validation error first, then the key's; it succeeds iff both are valid; a built client keeps the validated URL, the key, timeout and max_retries, defaults retry_config to MODERATE and pool_config to PoolConfig(), has a fresh pool with its headers and no session, and satisfies the metrics invariant with request id 0 |
| Client.AgentClient.GenerateRequestId | src/sdk/python/ai_agent/client.py:80-83 | increments the counter and returns the new counter with the timestamp; the metrics are unchanged |
| Client.AgentClient.UpdateMetrics | src/sdk/python/ai_agent/client.py:85-105 | the metrics become Recorded(old, success, latency) and stay consistent with the latencies, now including this one |
| Client.AgentClient.Initialize | src/sdk/python/ai_agent/client.py:107-110 | delegates to the pool: an open session with the pool's headers is created only when none exists; the closed flag is unchanged |
| Client.AgentClient.Close | src/sdk/python/ai_agent/client.py:201-204 | delegates to the pool: an existing session is closed |
| Client.AgentClient.Request | src/sdk/python/ai_agent/client.py:112-169 | ensures a session (a new one is open and carries the pool's headers; an existing one is kept) and leaves the closed flag alone; advances the request id by one; returns the retry loop's result over the attempts' interpretations; records one success or failure with the latency; on failure also sets last_error, stamped with its own clock reading; keeps the invariant |
| Client.AgentClient.GetMetrics | src/sdk/python/ai_agent/client.py:197-199 | between requests (none overlapping or cancelled) the metrics count every request once, as a success or a failure, and the count equals the request id |
| Managers.StatusNamesRoundTrip | src/sdk/python/ai_agent/types.py:20-31 | every task status name parses back to that status |
| Managers.AgentsQuery | src/sdk/python/ai_agent/managers.py:45-51 | definition: the agents query written out; QueryIsJoin and AgentsQueryParses relate it to the join and to splitting |
| Managers.TasksQuery | src/sdk/python/ai_agent/managers.py:128-134 | definition: the tasks query written out; QueryIsJoin and TasksQueryParses relate it to the join and to splitting |
| Managers.BuildQuery | src/sdk/python/ai_agent/managers.py:45-51 | the query is page=…&limit=…, followed by &key=value for each given, non-empty filter, in order |
| Managers.ListAgentsPath | src/sdk/python/ai_agent/managers.py:37-52 | the agents list path is "/agents?" followed by the page, limit, type and status query |
| Managers.ListTasksPath | src/sdk/python/ai_agent/managers.py:120-135 | the tasks list path is "/tasks?" followed by the page, limit, status and agentId query |
| Managers.QueryIsJoin | src/sdk/python/ai_agent/managers.py:45-51 | the written-out query equals "&".join of the parameter list |
| Managers.ParamsFreeOfAmpersand | src/sdk/python/ai_agent/managers.py:45-49 | when the filter values contain no '&', no parameter does |
| Managers.AgentsQueryParses | src/sdk/python/ai_agent/managers.py:45-51 | splitting the agents query on '&' gives back exactly its parameters |
| Managers.TasksQueryParses | src/sdk/python/ai_agent/managers.py:128-134 | splitting the tasks query on '&' gives back exactly its parameters |
| Managers.IfTruthy | src/sdk/python/ai_agent/managers.py:23-28 | definition: the `**({key: value} if value else {})` guard, a one-key map when the value is truthy and an empty one otherwise |
| Managers.CreatePayload | src/sdk/python/ai_agent/managers.py:23-28 | the payload holds name, type and capabilities, plus metadata exactly when it is truthy, each with its parameter's value |
| Managers.SubmitPayload | src/sdk/python/ai_agent/managers.py:103-111 | name, type and payload are always present; description, priority, config and metadata are present iff truthy; no other key; every value is its parameter's |
| Managers.SubmitDefaults | src/sdk/python/ai_agent/managers.py:103-111 | with default parameters the payload has name, type, payload and the NORMAL priority |
| Managers.CancelPayload | src/sdk/python/ai_agent/managers.py:175 | the only key is reason: the given reason, or "Cancelled by client" when it is missing or empty |
| Managers.FirstMissing | src/sdk/python/ai_agent/managers.py:82-90 | None iff every key is present; otherwise a listed key that is absent |
| Managers.ToAgent | src/sdk/python/ai_agent/managers.py:79-90 | definition: `_to_agent`, with TypeError for a non-dict and KeyError for the first missing key; AgentRoundTrip and AgentFromKeys state its properties |
| Managers.ToTask | src/sdk/python/ai_agent/managers.py:210-225 | definition: `_to_task`, with the optional fields' defaults; TaskRoundTrip, TaskDefaults and ToTaskFails state its properties |
| Managers.AgentRoundTrip | src/sdk/python/ai_agent/managers.py:79-90 | converting an agent's own dict back gives the agent |
| Managers.AgentFromKeys | src/sdk/python/ai_agent/managers.py:79-90 | a successful conversion came from a dict holding all seven keys, each field copied from its key |
| Managers.TaskRoundTrip | src/sdk/python/ai_agent/managers.py:210-225 | converting a task's own dict back gives the task |
| Managers.TaskDefaults | src/sdk/python/ai_agent/managers.py:218-224 | a dict with only the required keys converts, with priority NORMAL and result, error and assignedAgentId None |
| Managers.ToTaskFails | src/sdk/python/ai_agent/managers.py:210-225 | conversion succeeds iff the data is a dict with every required key; a non-dict is a TypeError; otherwise a KeyError names the first missing key |
| Managers.HasCapability | src/sdk/python/ai_agent/managers.py:74-77 | a failed fetch or a failed conversion propagates its error unchanged |
| Managers.CapabilityIn | src/sdk/python/ai_agent/managers.py:77 | definition: Python's `in` on a list, a string or a dict, and TypeError on anything else |
| Managers.CapabilityIsMembership | src/sdk/python/ai_agent/managers.py:74-77 | for any fetched dict that converts to an agent with a list of capabilities, extra keys included, has_capability is membership in that list |
| Managers.CapabilityOfOwnDict | src/sdk/python/ai_agent/managers.py:74-77 | for an agent's own dict, has_capability is true iff some listed capability equals the string |
| Managers.IsTerminalStatus | src/sdk/python/ai_agent/managers.py:154-160 | definition: membership in the four-status list |
| Managers.TerminalStatuses | src/sdk/python/ai_agent/managers.py:154-160 | a status is terminal iff it is COMPLETED, FAILED, CANCELLED or TIMED_OUT |
| Managers.EffectiveTimeout | src/sdk/python/ai_agent/managers.py:148 | a missing or zero timeout means 3600 s; any other value is used as given |
| Managers.WaitTimeout | src/sdk/python/ai_agent/managers.py:165-168 | the deadline error is a TimeoutError (code TIMEOUT, status 408) carrying the timeout in milliseconds |
| Managers.Decides | src/sdk/python/ai_agent/managers.py:151-168 | definition: an iteration leaves the loop when its get failed, its status is terminal, or the elapsed time exceeds the timeout |
| Managers.Verdict | src/sdk/python/ai_agent/managers.py:151-168 | definition: in the source's order, the get's error, then the terminal task, then the deadline's TimeoutError |
| Managers.Waited | src/sdk/python/ai_agent/managers.py:150-171 | definition: the polling specification, the verdict of the first deciding poll; WaitedAt, WaitedNone and WaitedDecided state its properties |
| Managers.PollsUsed | src/sdk/python/ai_agent/managers.py:150-171 | definition: the number of `get` calls up to and including the first deciding poll; WaitedAt and WaitedNone state it |
| Managers.WaitForCompletion | src/sdk/python/ai_agent/managers.py:143-171 | the loop's verdict and number of gets are those of the polling specification; it sleeps poll_interval (1 s) after every poll except a deciding one |
| Managers.WaitedAt | src/sdk/python/ai_agent/managers.py:150-171 | the first deciding poll gives the verdict, and exactly that many polls are made |
| Managers.WaitedNone | src/sdk/python/ai_agent/managers.py:150-171 | when no poll decides, the loop is still running after every poll |
| Managers.WaitedDecided | src/sdk/python/ai_agent/managers.py:150-171 | a verdict other than still running comes from a deciding poll that is the first one |
| Managers.ReturnsFirstTerminal | src/sdk/python/ai_agent/managers.py:151-160 | the loop returns task t iff some poll returned t as terminal and every earlier poll was non-terminal, within the deadline |
| Managers.RaisesOnlyOnFailureOrDeadline | src/sdk/python/ai_agent/managers.py:151-168 | the loop raises only when a get failed or a non-terminal poll came after the deadline, and only at the first deciding poll |
| Managers.DeadlineIsStrict | src/sdk/python/ai_agent/managers.py:163-164 | a poll at exactly the deadline does not time out; a later one does |

## Left out

- Other transport exceptions: only `aiohttp.ClientError` is wrapped into HTTP_ERROR. Any other
  `Exception` subclass the transport raises, such as the `asyncio.TimeoutError` of the total
  timeout, is `Client.TransportRaised`. It becomes `Errors.OtherException` by class name, passes
  through unwrapped, and `retry` and `request` catch it like any other failure. Its message is
  not modelled.
- Cancellation and `BaseException`: `Fault` covers only `Exception` subclasses. An exception that
  derives only from `BaseException` escapes both `except Exception` clauses. Examples are
  `asyncio.CancelledError` and `KeyboardInterrupt`. Such a call is neither retried nor recorded
  in the metrics, although its request id has already been issued.
- `Client.AgentClient.Request`: modelled one call at a time. Overlapping `request` calls are not
  modelled, and neither are cancelled ones. `Valid()`'s `requestId == totalRequests`, and with it
  `Client.AgentClient.GetMetrics`'s count, holds only while no request is in flight or was
  cancelled.
- HTTP, aiohttp and JSON decoding. A response is given as its status and its already decoded
  body, or as a transport failure. `response.json()` raising on a non-JSON body is not modelled.
- The method, the path and the request data: they only reach the transport, so they are not
  parameters of `Client.AgentClient.Request`.
- The clock: latencies, timestamps and elapsed poll times are parameters.
- Logging: none of it affects a result.
- Concurrency: `submit_batch` and `wait_for_all` are `asyncio.gather` over `submit` and
  `wait_for_completion`, and both of those are modelled one call at a time.
- Floating point. Latencies, averages, rates and elapsed times are exact reals, and the backoff
  multiplier is a natural number, so a fractional multiplier is not modelled.
- `RetryLogic.CalculateDelay`: computes exactly with an integer multiplier, but the source
  multiplies in floating point. Products above 2^53 are rounded there. With AGGRESSIVE's 50
  and 2.0, the float arithmetic of retry.py:35 raises OverflowError from attempt 1020 on. For
  attempts 1020-1024 `int(...)` of an infinite product raises it. From attempt 1025 on,
  `2.0 ** (attempt - 1)` already raises it. `CalculateDelay`, `DelaySaturates` and `AggressiveCapped` return the cap
  instead. No run of `retry` with the presets reaches such attempts.
- `RetryLogic.Retry`: returns the `on_retry` notices and the sleeps as two separate
  sequences. It does not state their interleaving: for each retried failure, `on_retry` is
  called before that failure's `asyncio.sleep`.
- `RetryLogic.DelayNondecreasing`: stated only for a non-negative initial delay. With a negative
  one, longer waits are more negative.
- Integer width: Python integers are unbounded, and so are Dafny's.
- `str(error)` and `lower()` beyond ASCII. `is_retryable_error` is modelled on the message text.
  Lower-casing is ASCII only.
- `metrics.last_error`: stores the `Fault` itself, not its `str()`.
- `__repr__`: not modelled.
- The `retries` and per-call `timeout` arguments of `request`, and the client's `max_retries`:
  the source never uses them to control retrying. The retry loop uses `retry_config.max_retries`,
  and the timeout goes only to the transport.
- `Client.AgentClient.constructor`: does not promise the metrics invariant itself. `Create`
  establishes it right after construction, and it is the entry point that models
  `AgentClient(...)` including its validation errors.
- Sessions: a closed aiohttp session raising on use is not modelled.
  - `acquire` after `close` returns the closed session. The code never consults `_closed`.
  - `acquire` is called again on every attempt. This is a no-op once a session exists, and
    `Client.AgentClient.Request` promises that the session is kept.
- `get_stats`: the connector's semaphore count is not modelled.
- `get`, `update`, `get_status`, `get_capabilities`, `retry`, `get_result` and `get_error`:
  each is one `request` followed by `_to_agent` or `_to_task`, and possibly a field read.
  `delete` (which discards the result) and `health` (which returns the raw result) are a bare
  `request`. The request part is `Client.AgentClient.Request`, the conversions are
  `Managers.ToAgent` and `Managers.ToTask`, and a poll of `wait_for_completion` is given the
  outcome of such a `get`.
- Percent-encoding: the query values are inserted verbatim, as in the source.
  `Managers.AgentsQueryParses` and `Managers.TasksQueryParses` therefore assume values without
  '&'.
- Dictionary order: maps in the payloads have no key order.
- `get_metrics` aliasing: it returns the live metrics object. The model returns its value.
- The managers' back-reference to the client (`self.client`): it is not modelled as an object
  graph.
