/** Exponential backoff and the bounded retry loop (`retry.py`). */
module RetryLogic {
  import opened Text
  import opened Errors

  /** `RetryConfig`; the multiplier, a float in Python, is a natural number here. */
  datatype RetryConfig = RetryConfig(maxRetries: int, initialDelay: int, maxDelay: int, backoffMultiplier: nat)

  /** `RetryConfig()` with no arguments. */
  const DefaultConfig := RetryConfig(3, 100, 10000, 2)

  /** `RetryPresets`. */
  const Aggressive := RetryConfig(5, 50, 5000, 2)
  const Moderate := RetryConfig(3, 100, 10000, 2)
  const Conservative := RetryConfig(1, 500, 5000, 2)
  const NoRetry := RetryConfig(0, 0, 0, 1)

  function Pow(b: nat, e: nat): nat
    decreases e
  {
    if e == 0 then 1 else b * Pow(b, e - 1)
  }

  lemma {:induction false} PowNondecreasing(b: nat, e1: nat, e2: nat)
    requires b >= 1 && e1 <= e2
    ensures Pow(b, e1) <= Pow(b, e2)
    decreases e2
  {
    if e1 < e2 {
      PowNondecreasing(b, e1, e2 - 1);
      assert Pow(b, e2) == b * Pow(b, e2 - 1);
    }
  }

  /** `calculate_delay`: the exponential term `initial * mult^(attempt-1)`, capped at `maxDelay`. */
  function CalculateDelay(attempt: int, initialDelay: int, maxDelay: int, mult: nat): (d: int)
    requires attempt >= 1
    ensures d <= maxDelay
    ensures d == maxDelay || d == initialDelay * Pow(mult, attempt - 1)
    ensures initialDelay * Pow(mult, attempt - 1) <= maxDelay ==> d == initialDelay * Pow(mult, attempt - 1)
  {
    var delay := initialDelay * Pow(mult, attempt - 1);
    if delay < maxDelay then delay else maxDelay
  }

  /** The delay `retry` computes before retrying after failed attempt `attempt`. */
  function DelayFor(config: RetryConfig, attempt: int): int
    requires attempt >= 1
  {
    CalculateDelay(attempt, config.initialDelay, config.maxDelay, config.backoffMultiplier)
  }

  /** The first attempt waits `min(initial, max)`. */
  lemma FirstDelay(initialDelay: int, maxDelay: int, mult: nat)
    ensures CalculateDelay(1, initialDelay, maxDelay, mult) == if initialDelay < maxDelay then initialDelay else maxDelay
  {
  }

  /** With a multiplier of at least 1 and a non-negative initial delay, later attempts never wait less. */
  lemma DelayNondecreasing(a1: int, a2: int, initialDelay: int, maxDelay: int, mult: nat)
    requires 1 <= a1 <= a2
    requires initialDelay >= 0 && mult >= 1
    ensures CalculateDelay(a1, initialDelay, maxDelay, mult) <= CalculateDelay(a2, initialDelay, maxDelay, mult)
  {
    PowNondecreasing(mult, a1 - 1, a2 - 1);
    MultiplyMonotone(initialDelay, Pow(mult, a1 - 1), Pow(mult, a2 - 1));
  }

  lemma MultiplyMonotone(k: int, x: int, y: int)
    requires k >= 0 && x <= y
    ensures k * x <= k * y
  {
  }

  /** Once the exponential term reaches the cap, every later delay is the cap. */
  lemma DelaySaturates(a1: int, a2: int, initialDelay: int, maxDelay: int, mult: nat)
    requires 1 <= a1 <= a2
    requires initialDelay >= 0 && mult >= 1
    requires initialDelay * Pow(mult, a1 - 1) >= maxDelay
    ensures CalculateDelay(a2, initialDelay, maxDelay, mult) == maxDelay
  {
    PowNondecreasing(mult, a1 - 1, a2 - 1);
    MultiplyMonotone(initialDelay, Pow(mult, a1 - 1), Pow(mult, a2 - 1));
  }

  /** The delays the presets wait between attempts; `RetryConfig()` with no arguments is MODERATE. */
  lemma PresetSchedules()
    ensures DelayFor(Aggressive, 1) == 50 && DelayFor(Aggressive, 2) == 100 && DelayFor(Aggressive, 3) == 200
    ensures DelayFor(Aggressive, 4) == 400 && DelayFor(Aggressive, 5) == 800
    ensures DelayFor(Moderate, 1) == 100 && DelayFor(Moderate, 2) == 200 && DelayFor(Moderate, 3) == 400
    ensures DelayFor(Conservative, 1) == 500
    ensures DefaultConfig == Moderate
  {
  }

  /** `calculate_delay` with the aggressive preset's parameters gives the 5000 ms cap from attempt
      8 on. `retry` itself stops after 5 attempts under that preset, so this is about the delay
      function alone. */
  lemma AggressiveCapped(attempt: int)
    requires attempt >= 8
    ensures DelayFor(Aggressive, attempt) == 5000
  {
    assert Pow(2, 7) == 128;
    DelaySaturates(8, attempt, 50, 5000, 2);
  }

  /** The `NONE` preset never waits. */
  lemma NoRetryNeverWaits(attempt: int)
    requires attempt >= 1
    ensures DelayFor(NoRetry, attempt) == 0
  {
  }

  /** Index of the first success in `s`, or `|s|` when every call failed. */
  function FirstOk<T>(s: seq<Outcome<T>>): (k: nat)
    ensures k <= |s|
    ensures k < |s| ==> s[k].Ok?
    ensures forall i :: 0 <= i < k ==> s[i].Err?
    decreases |s|
  {
    if s == [] then 0 else if s[0].Ok? then 0 else 1 + FirstOk(s[1..])
  }

  /** How many times `retry` calls `fn` when the calls produce `outcomes` in order. */
  function Attempts<T>(outcomes: seq<Outcome<T>>, maxRetries: int): (n: nat)
    requires maxRetries < |outcomes|
    ensures n == 0 <==> maxRetries < 0
    ensures maxRetries >= 0 ==> n <= maxRetries + 1
    ensures forall i :: 0 <= i < n - 1 ==> outcomes[i].Err?
    ensures 0 < n < maxRetries + 1 ==> outcomes[n - 1].Ok?
  {
    if maxRetries < 0 then 0
    else
      var k := FirstOk(outcomes[..maxRetries + 1]);
      if k <= maxRetries then k + 1 else maxRetries + 1
  }

  /** What the caller of `retry` sees: the outcome of the last call made. With no call at all
      (`max_retries < 0`) the final `raise last_error` raises None, a TypeError. */
  function RetryResult<T>(outcomes: seq<Outcome<T>>, maxRetries: int): Outcome<T>
    requires maxRetries < |outcomes|
  {
    var n := Attempts(outcomes, maxRetries);
    if n == 0 then Err(TypeError) else outcomes[n - 1]
  }

  /** An operation that always fails is called `R + 1` times and its last failure surfaces as is. */
  lemma AlwaysFailing<T>(outcomes: seq<Outcome<T>>, maxRetries: int)
    requires 0 <= maxRetries < |outcomes|
    requires forall i :: 0 <= i <= maxRetries ==> outcomes[i].Err?
    ensures Attempts(outcomes, maxRetries) == maxRetries + 1
    ensures RetryResult(outcomes, maxRetries) == outcomes[maxRetries]
  {
    var prefix := outcomes[..maxRetries + 1];
    assert forall i :: 0 <= i < |prefix| ==> prefix[i].Err?;
  }

  /** An operation that first succeeds on call `k` is called exactly `k` times and its value is returned. */
  lemma SucceedsOnCall<T>(outcomes: seq<Outcome<T>>, maxRetries: int, k: nat)
    requires maxRetries < |outcomes|
    requires 1 <= k <= maxRetries + 1
    requires outcomes[k - 1].Ok?
    requires forall i :: 0 <= i < k - 1 ==> outcomes[i].Err?
    ensures Attempts(outcomes, maxRetries) == k
    ensures RetryResult(outcomes, maxRetries) == outcomes[k - 1]
  {
    var prefix := outcomes[..maxRetries + 1];
    assert prefix[k - 1].Ok?;
    assert forall i :: 0 <= i < k - 1 ==> prefix[i].Err?;
  }

  /** The `NONE` preset makes exactly one call and returns what it produced. */
  lemma NoRetrySingleAttempt<T>(outcomes: seq<Outcome<T>>)
    requires |outcomes| > 0
    ensures Attempts(outcomes, NoRetry.maxRetries) == 1
    ensures RetryResult(outcomes, NoRetry.maxRetries) == outcomes[0]
  {
  }

  /** One invocation of the `on_retry` observer: `on_retry(attempt, delay, error)`. */
  datatype RetryNotice = RetryNotice(attempt: int, delay: int, error: Fault)

  /** `retry(fn, config, on_retry)`, where the i-th call of `fn` produces `outcomes[i]` and
      `observed` says whether an `on_retry` callback was given. Besides the result it returns the
      number of calls made, the observer's invocations and the sleeps, in seconds. */
  method Retry<T>(outcomes: seq<Outcome<T>>, config: RetryConfig, observed: bool)
    returns (r: Outcome<T>, calls: nat, notices: seq<RetryNotice>, sleeps: seq<real>)
    requires config.maxRetries < |outcomes|
    ensures calls == Attempts(outcomes, config.maxRetries)
    ensures r == RetryResult(outcomes, config.maxRetries)
    ensures |sleeps| == if calls == 0 then 0 else calls - 1
    ensures forall i :: 0 <= i < |sleeps| ==> sleeps[i] == (DelayFor(config, i + 1) as real) / 1000.0
    ensures !observed ==> notices == []
    ensures observed ==> |notices| == |sleeps|
    ensures observed ==> forall i :: 0 <= i < |notices| ==>
              outcomes[i].Err? && notices[i] == RetryNotice(i + 1, DelayFor(config, i + 1), outcomes[i].fault)
  {
    calls, notices, sleeps := 0, [], [];
    var attempt := 0;
    while attempt < config.maxRetries + 1
      invariant 0 <= attempt
      invariant config.maxRetries >= 0 ==> attempt <= config.maxRetries
      invariant config.maxRetries < 0 ==> attempt == 0
      invariant calls == attempt
      invariant forall i :: 0 <= i < attempt ==> outcomes[i].Err?
      invariant |sleeps| == attempt
      invariant forall i :: 0 <= i < attempt ==> sleeps[i] == (DelayFor(config, i + 1) as real) / 1000.0
      invariant !observed ==> notices == []
      invariant observed ==> |notices| == attempt
      invariant observed ==> forall i :: 0 <= i < attempt ==>
                  notices[i] == RetryNotice(i + 1, DelayFor(config, i + 1), outcomes[i].fault)
    {
      calls := calls + 1;
      var outcome := outcomes[attempt];
      if outcome.Ok? {
        r := outcome;
        SucceedsOnCall(outcomes, config.maxRetries, attempt + 1);
        return;
      }
      if attempt == config.maxRetries {
        r := Err(outcome.fault);
        AlwaysFailing(outcomes, config.maxRetries);
        return;
      }
      var delay := DelayFor(config, attempt + 1);
      if observed {
        notices := notices + [RetryNotice(attempt + 1, delay, outcome.fault)];
      }
      sleeps := sleeps + [(delay as real) / 1000.0];
      attempt := attempt + 1;
    }
    r := Err(TypeError);
  }

  /** `is_retryable_error`, on the text `str(error)` of the exception. On the lower-cased text it
      looks for network trouble, then a "5" anywhere or "server error", then a rate limit, then
      "service unavailable". */
  function IsRetryableError(message: string): bool {
    var m := Lower(message);
    if Contains(m, "connection refused") || Contains(m, "connection reset") || Contains(m, "timeout") || Contains(m, "not found") then true
    else if Contains(m, "5") || Contains(m, "server error") then true
    else if Contains(m, "429") || Contains(m, "rate limit") then true
    else if Contains(m, "503") || Contains(m, "service unavailable") then true
    else false
  }

  /** Any message holding the digit 5 counts as retryable, whatever it says. */
  lemma AnyFiveIsRetryable(message: string)
    requires Contains(message, "5")
    ensures IsRetryableError(message)
  {
    ContainsLower(message, "5");
  }

  /** The check ignores case: a message and its lower-cased form are classified alike. */
  lemma RetryableIgnoresCase(message: string)
    ensures IsRetryableError(message) == IsRetryableError(Lower(message))
  {
    assert Lower(Lower(message)) == Lower(message);
  }

  /** The "503" test can never decide: a message containing "503" already contains "5". */
  lemma Status503Subsumed(message: string)
    ensures IsRetryableError(message) <==>
      var m := Lower(message);
      Contains(m, "connection refused") || Contains(m, "connection reset") || Contains(m, "timeout") || Contains(m, "not found")
      || Contains(m, "5") || Contains(m, "server error") || Contains(m, "429") || Contains(m, "rate limit")
      || Contains(m, "service unavailable")
  {
    var m := Lower(message);
    if Contains(m, "503") {
      ContainsAt(m, "503");
      var i :| OccursAt(m, "503", i);
      assert m[i] == "503"[0];
      assert m[i..i + 1] == "5";
      assert OccursAt(m, "5", i);
      ContainsAt(m, "5");
    }
  }

  /** A network failure is retryable whatever its capitalisation. */
  lemma RetryableSampleNetwork()
    ensures IsRetryableError("Connection Refused by host")
  {
    var m := Lower("Connection Refused by host");
    assert m == "connection refused by host";
    assert OccursAt(m, "connection refused", 0);
    ContainsAt(m, "connection refused");
  }

  /** An empty message is not retryable. */
  lemma RetryableSampleRejected()
    ensures !IsRetryableError("")
  {
  }

  /** A validation message that happens to hold a 5 is retryable: the quirk. */
  lemma RetryableSampleQuirk()
    ensures IsRetryableError("field 5 is invalid")
  {
    AnyFiveIsRetryable("field 5 is invalid");
  }
}
