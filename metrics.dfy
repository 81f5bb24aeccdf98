/** The client's request metrics (`ClientMetrics` and `AgentClient._update_metrics`). Latencies
    and rates are exact reals here, not IEEE floats. */
module Metrics {
  import opened Values
  import opened Errors

  /** `metrics.last_error`: what failed and when (the timestamp is a parameter of the model). */
  datatype LastError = LastError(error: Fault, timestamp: string)

  datatype ClientMetrics = ClientMetrics(
    totalRequests: nat,
    successfulRequests: nat,
    failedRequests: nat,
    totalErrors: nat,
    averageLatency: real,
    successRate: real,
    errorRate: real,
    lastError: Option<LastError>)

  /** `ClientMetrics()`: every counter zero, no last error. */
  const InitialMetrics := ClientMetrics(0, 0, 0, 0, 0.0, 0.0, 0.0, None)

  function Sum(xs: seq<real>): real
    decreases |xs|
  {
    if xs == [] then 0.0 else Sum(xs[..|xs| - 1]) + xs[|xs| - 1]
  }

  /** The arithmetic mean, 0 for no values. */
  function Mean(xs: seq<real>): real {
    if xs == [] then 0.0 else Sum(xs) / |xs| as real
  }

  /** `part / total * 100`. */
  function Percentage(part: nat, total: nat): real
    requires total > 0
  {
    (part as real / total as real) * 100.0
  }

  /** The metrics after `_update_metrics(success, latency)`. */
  function Recorded(m: ClientMetrics, success: bool, latency: real): ClientMetrics {
    var total := m.totalRequests + 1;
    var succeeded := if success then m.successfulRequests + 1 else m.successfulRequests;
    var failed := if success then m.failedRequests else m.failedRequests + 1;
    m.(totalRequests := total,
       successfulRequests := succeeded,
       failedRequests := failed,
       totalErrors := if success then m.totalErrors else m.totalErrors + 1,
       averageLatency := (m.averageLatency * (total - 1) as real + latency) / total as real,
       successRate := Percentage(succeeded, total),
       errorRate := Percentage(failed, total))
  }

  /** The invariant the metrics keep once every recorded latency is known: the counters agree,
      the average is the mean of all latencies and the rates are derived from the counts. */
  ghost predicate Consistent(m: ClientMetrics, latencies: seq<real>) {
    && m.totalRequests == |latencies|
    && m.successfulRequests + m.failedRequests == m.totalRequests
    && m.totalErrors == m.failedRequests
    && m.averageLatency == Mean(latencies)
    && (m.totalRequests == 0 ==> m.successRate == 0.0 && m.errorRate == 0.0)
    && (m.totalRequests > 0 ==>
          m.successRate == Percentage(m.successfulRequests, m.totalRequests)
          && m.errorRate == Percentage(m.failedRequests, m.totalRequests))
  }

  /** Fresh metrics are consistent with no latencies. */
  lemma InitialConsistent(m: ClientMetrics, latencies: seq<real>)
    requires m == InitialMetrics && latencies == []
    ensures Consistent(m, latencies)
  {
  }

  /** One update counts the request exactly once, as a success or as a failure, and counts an
      error exactly when it failed; nothing is ever decremented. */
  lemma RecordedCounts(m: ClientMetrics, success: bool, latency: real)
    ensures Recorded(m, success, latency).totalRequests == m.totalRequests + 1
    ensures Recorded(m, success, latency).successfulRequests + Recorded(m, success, latency).failedRequests
         == m.successfulRequests + m.failedRequests + 1
    ensures success <==> Recorded(m, success, latency).successfulRequests == m.successfulRequests + 1
    ensures !success <==> Recorded(m, success, latency).failedRequests == m.failedRequests + 1
    ensures Recorded(m, success, latency).totalErrors == m.totalErrors + (if success then 0 else 1)
    ensures Recorded(m, success, latency).lastError == m.lastError
  {
  }

  /** Appending a value to a list of `n` values moves the mean by the incremental-mean formula. */
  lemma {:induction false} MeanStep(xs: seq<real>, x: real)
    ensures Mean(xs + [x]) == (Mean(xs) * |xs| as real + x) / (|xs| + 1) as real
  {
    var ys := xs + [x];
    assert ys[..|ys| - 1] == xs;
    assert Sum(ys) == Sum(xs) + x;
    if xs != [] {
      var n := |xs| as real;
      assert Mean(xs) * n == Sum(xs) by {
        assert Mean(xs) == Sum(xs) / n;
      }
    }
  }

  /** `_update_metrics` keeps the invariant: the counters still agree, the average becomes the
      mean of all latencies including the new one, and the rates are recomputed from the counts. */
  lemma RecordKeepsConsistent(m: ClientMetrics, latencies: seq<real>, success: bool, latency: real)
    requires Consistent(m, latencies)
    ensures Consistent(Recorded(m, success, latency), latencies + [latency])
  {
    MeanStep(latencies, latency);
  }

  /** Two counts that make up a positive total give complementary percentages within [0, 100]. */
  lemma PercentagesComplement(part: nat, rest: nat)
    requires part + rest > 0
    ensures Percentage(part, part + rest) + Percentage(rest, part + rest) == 100.0
    ensures 0.0 <= Percentage(part, part + rest) <= 100.0
  {
    var t := (part + rest) as real;
    var a := part as real / t;
    var b := rest as real / t;
    assert a * t == part as real;
    assert b * t == rest as real;
    calc {
      (a + b) * t;
      a * t + b * t;
      part as real + rest as real;
      t;
    }
    assert (a + b - 1.0) * t == 0.0;
    assert a + b == 1.0;
    assert 0.0 <= a;
    assert a <= 1.0 by {
      assert a * t <= 1.0 * t;
    }
  }

  /** After any number of updates from the start the two rates add up to 100 and each lies in [0, 100]. */
  lemma RatesComplement(m: ClientMetrics, latencies: seq<real>)
    requires Consistent(m, latencies)
    requires m.totalRequests > 0
    ensures m.successRate + m.errorRate == 100.0
    ensures 0.0 <= m.successRate <= 100.0 && 0.0 <= m.errorRate <= 100.0
  {
    PercentagesComplement(m.successfulRequests, m.failedRequests);
    PercentagesComplement(m.failedRequests, m.successfulRequests);
  }
}
