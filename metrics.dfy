/**
 * Request metrics: a collector of counters and per-intent / per-error tallies, the summary it
 * reports, a timer for one request, and the process-wide collector requests are recorded in.
 * Times are `real` seconds read from a clock the caller passes in.
 */
module Metrics {
  import opened Wrappers
  import PyDict

  /** A `defaultdict(int)` of counts. */
  type Counts = PyDict.Entries<nat>

  /** The sum of all counts. */
  function Total(d: Counts): nat
    decreases |d|
  {
    if d == [] then 0 else d[0].1 + Total(d[1..])
  }

  /** `d[k] += 1` on a `defaultdict(int)`. */
  function Increment(d: Counts, k: string): Counts {
    PyDict.Put(d, k, PyDict.GetOr(d, k, 0) + 1)
  }

  /**
   * Incrementing a key counts exactly one more: that key's count goes up by one, no other
   * count moves, and the total grows by one.
   */
  lemma {:induction false} IncrementCounts(d: Counts, k: string)
    ensures PyDict.Get(Increment(d, k), k) == Some(PyDict.GetOr(d, k, 0) + 1)
    ensures forall k' :: k' != k ==> PyDict.Get(Increment(d, k), k') == PyDict.Get(d, k')
    ensures Total(Increment(d, k)) == Total(d) + 1
    ensures PyDict.Wf(d) ==> PyDict.Wf(Increment(d, k))
  {
    PyDict.PutGet(d, k, PyDict.GetOr(d, k, 0) + 1);
    forall k' | k' != k ensures PyDict.Get(Increment(d, k), k') == PyDict.Get(d, k') {
      PyDict.PutOther(d, k, PyDict.GetOr(d, k, 0) + 1, k');
    }
    PutTotal(d, k, PyDict.GetOr(d, k, 0) + 1);
    if PyDict.Wf(d) {
      PyDict.PutWf(d, k, PyDict.GetOr(d, k, 0) + 1);
    }
  }

  /**
   * `if key: d[key] += 1`: a truthy (present, non-empty) key is counted once more, anything
   * else leaves the tally alone.
   */
  function Tallied(d: Counts, key: Option<string>): (r: Counts)
    ensures key.Some? && key.value != "" ==> PyDict.Get(r, key.value) == Some(PyDict.GetOr(d, key.value, 0) + 1)
    ensures forall k :: (key.None? || k != key.value) ==> PyDict.Get(r, k) == PyDict.Get(d, k)
    ensures Total(r) == Total(d) + (if key.Some? && key.value != "" then 1 else 0)
    ensures PyDict.Wf(d) ==> PyDict.Wf(r)
  {
    if key.Some? && key.value != "" then
      IncrementCounts(d, key.value);
      Increment(d, key.value)
    else d
  }

  /** Storing `v` under `k` replaces `k`'s old count (0 when absent) in the total. */
  lemma {:induction false} PutTotal(d: Counts, k: string, v: nat)
    ensures Total(PyDict.Put(d, k, v)) + PyDict.GetOr(d, k, 0) == Total(d) + v
    decreases |d|
  {
    if d != [] && d[0].0 != k {
      PutTotal(d[1..], k, v);
      assert PyDict.Put(d, k, v)[1..] == PyDict.Put(d[1..], k, v);
    } else if d != [] {
      assert PyDict.Put(d, k, v)[1..] == d[1..];
    }
  }

  /** What `get_metrics` reports, with exact rates (see README for rounding). */
  datatype Report = Report(
    uptimeSeconds: real,
    totalRequests: nat,
    successfulRequests: nat,
    failedRequests: nat,
    successRatePercent: real,
    averageResponseTimeSeconds: real,
    totalTokensUsed: int,
    requestsPerMinute: real,
    requestsByIntent: Counts,
    errorsByType: Counts)

  /** `MetricsCollector`. */
  class MetricsCollector {
    var requestCount: nat
    var successCount: nat
    var errorCount: nat
    var totalResponseTime: real
    var totalTokensUsed: int
    var requestsByIntent: Counts
    var errorsByType: Counts
    var startTime: real

    /**
     * Every request succeeded or failed, each intent tally counts requests, and each error
     * tally counts failed requests.
     */
    ghost predicate Valid()
      reads this
    {
      && successCount + errorCount == requestCount
      && PyDict.Wf(requestsByIntent) && Total(requestsByIntent) <= requestCount
      && PyDict.Wf(errorsByType) && Total(errorsByType) <= errorCount
    }

    /** `__init__`, with `datetime.now()` passed in as `now`. */
    constructor (now: real)
      ensures Valid()
      ensures requestCount == 0 && successCount == 0 && errorCount == 0
      ensures totalResponseTime == 0.0 && totalTokensUsed == 0
      ensures requestsByIntent == [] && errorsByType == [] && startTime == now
    {
      requestCount := 0;
      successCount := 0;
      errorCount := 0;
      totalResponseTime := 0.0;
      totalTokensUsed := 0;
      requestsByIntent := [];
      errorsByType := [];
      startTime := now;
    }

    /**
     * `record_request`: one more request, counted as a success or a failure; a failure with a
     * non-empty error type and a request with a non-empty intent are tallied; a non-zero token
     * count is added.
     */
    method RecordRequest(success: bool, responseTime: real, intent: Option<string>,
                         tokensUsed: Option<int>, errorType: Option<string>)
      requires Valid()
      modifies this
      ensures Valid()
      ensures requestCount == old(requestCount) + 1
      ensures success ==> successCount == old(successCount) + 1 && errorCount == old(errorCount)
      ensures !success ==> successCount == old(successCount) && errorCount == old(errorCount) + 1
      ensures errorsByType == if success then old(errorsByType) else Tallied(old(errorsByType), errorType)
      ensures requestsByIntent == Tallied(old(requestsByIntent), intent)
      ensures totalResponseTime == old(totalResponseTime) + responseTime
      ensures totalTokensUsed == old(totalTokensUsed) + (if tokensUsed.Some? then tokensUsed.value else 0)
      ensures startTime == old(startTime)
    {
      requestCount := requestCount + 1;
      if success {
        successCount := successCount + 1;
      } else {
        errorCount := errorCount + 1;
        errorsByType := Tallied(errorsByType, errorType);
      }
      totalResponseTime := totalResponseTime + responseTime;
      requestsByIntent := Tallied(requestsByIntent, intent);
      if tokensUsed.Some? && tokensUsed.value != 0 {
        totalTokensUsed := totalTokensUsed + tokensUsed.value;
      }
    }

    /**
     * `get_metrics` at clock time `now`: the counts as recorded, success and failure adding
     * up to the total, a success rate between 0 and 100 that is 100 exactly when requests were
     * made and none failed, and zero rates before any request or before any time has passed.
     */
    function GetMetrics(now: real): (m: Report)
      reads this
      requires Valid()
      ensures m.totalRequests == requestCount && m.successfulRequests == successCount && m.failedRequests == errorCount
      ensures m.successfulRequests + m.failedRequests == m.totalRequests
      ensures m.uptimeSeconds == now - startTime
      ensures 0.0 <= m.successRatePercent <= 100.0
      ensures m.successRatePercent == 100.0 <==> requestCount > 0 && errorCount == 0
      ensures m.successRatePercent == 0.0 <==> successCount == 0
      ensures requestCount == 0 ==> m.averageResponseTimeSeconds == 0.0
      ensures requestCount > 0 ==> m.averageResponseTimeSeconds * requestCount as real == totalResponseTime
      ensures m.uptimeSeconds > 0.0 ==> m.requestsPerMinute * m.uptimeSeconds == 60.0 * requestCount as real
      ensures m.uptimeSeconds <= 0.0 ==> m.requestsPerMinute == 0.0
      ensures Total(m.errorsByType) <= m.failedRequests && Total(m.requestsByIntent) <= m.totalRequests
    {
      var uptime := now - startTime;
      var n := requestCount as real;
      var rate := if requestCount > 0 then RatePercent(successCount, requestCount) else 0.0;
      var average := if requestCount > 0 then totalResponseTime / n else 0.0;
      var perMinute := if uptime > 0.0 then n / (uptime / 60.0) else 0.0;
      DivTimes(totalResponseTime, n);
      PerMinuteTimes(n, uptime);
      Report(uptime, requestCount, successCount, errorCount, rate, average, totalTokensUsed,
             perMinute, requestsByIntent, errorsByType)
    }

    /** `reset`: the state of a collector created at `now`. */
    method Reset(now: real)
      modifies this
      ensures Valid()
      ensures requestCount == 0 && successCount == 0 && errorCount == 0
      ensures totalResponseTime == 0.0 && totalTokensUsed == 0
      ensures requestsByIntent == [] && errorsByType == [] && startTime == now
    {
      requestCount := 0;
      successCount := 0;
      errorCount := 0;
      totalResponseTime := 0.0;
      totalTokensUsed := 0;
      requestsByIntent := [];
      errorsByType := [];
      startTime := now;
    }
  }

  /** `success / total * 100` for `0 < total`, bounded by the number of successes. */
  function RatePercent(success: nat, total: nat): (r: real)
    requires 0 < total && success <= total
    ensures 0.0 <= r <= 100.0
    ensures r == 100.0 <==> success == total
    ensures r == 0.0 <==> success == 0
  {
    var q := success as real / total as real;
    assert q * total as real == success as real;
    RatioBounds(q, success as real, total as real);
    q * 100.0
  }

  lemma RatioBounds(q: real, s: real, t: real)
    requires 0.0 < t && 0.0 <= s <= t && q * t == s
    ensures 0.0 <= q <= 1.0
    ensures q == 1.0 <==> s == t
    ensures q == 0.0 <==> s == 0.0
  {
    assert q == s / t;
  }

  lemma DivTimes(a: real, b: real)
    ensures b != 0.0 ==> (a / b) * b == a
  {
  }

  lemma PerMinuteTimes(n: real, uptime: real)
    ensures uptime > 0.0 ==> (n / (uptime / 60.0)) * uptime == 60.0 * n
  {
    var perSecond := uptime / 60.0;
    DivTimes(n, perSecond);
    assert uptime == perSecond * 60.0;
  }

  /** A request counted twice is two requests: recording never loses a count. */
  lemma RecordedTwice(d: Counts, k: string)
    ensures PyDict.Get(Increment(Increment(d, k), k), k) == Some(PyDict.GetOr(d, k, 0) + 2)
    ensures Total(Increment(Increment(d, k), k)) == Total(d) + 2
  {
    IncrementCounts(d, k);
    IncrementCounts(Increment(d, k), k);
  }

  /** `RequestTimer`: the clock readings of one `with` block. */
  class RequestTimer {
    var name: string
    var startTime: Option<real>
    var endTime: Option<real>
    var elapsed: Option<real>

    constructor (name: string)
      ensures this.name == name && startTime == None && endTime == None && elapsed == None
    {
      this.name := name;
      startTime := None;
      endTime := None;
      elapsed := None;
    }

    /** `__enter__`: the clock reads `now`. */
    method Enter(now: real)
      modifies this
      ensures startTime == Some(now) && endTime == old(endTime) && elapsed == old(elapsed) && name == old(name)
    {
      startTime := Some(now);
    }

    /**
     * `__exit__`: records the end time and the elapsed time, and never suppresses the
     * exception (the result is `False`). Exiting a timer never entered raises, since the
     * start time is still `None`.
     */
    method Exit(now: real) returns (r: Result<bool, string>)
      modifies this
      ensures endTime == Some(now) && name == old(name) && startTime == old(startTime)
      ensures old(startTime).Some? ==> r == Success(false) && elapsed == Some(now - old(startTime).value)
      ensures old(startTime).None? ==> r == Failure("unsupported operand type(s) for -: 'float' and 'NoneType'") && elapsed == old(elapsed)
    {
      endTime := Some(now);
      if startTime.None? {
        return Failure("unsupported operand type(s) for -: 'float' and 'NoneType'");
      }
      elapsed := Some(now - startTime.value);
      r := Success(false);
    }

    /** `get_elapsed`: the elapsed time, or 0 before the block has been left. */
    function GetElapsed(): (e: real)
      reads this
      ensures elapsed.None? ==> e == 0.0
      ensures elapsed.Some? ==> e == elapsed.value
    {
      if elapsed.Some? then elapsed.value else 0.0
    }
  }

  /** A timed block reports the difference of the two clock readings. */
  method TimeBlock(name: string, start: real, finish: real) returns (elapsed: real)
    ensures elapsed == finish - start
  {
    var timer := new RequestTimer(name);
    timer.Enter(start);
    var _ := timer.Exit(finish);
    elapsed := timer.GetElapsed();
  }

  /**
   * `record_request_metric`: forwards to the process-wide collector, here passed in as
   * `global`.
   */
  method RecordRequestMetric(global: MetricsCollector, success: bool, responseTime: real,
                             intent: Option<string>, tokensUsed: Option<int>, errorType: Option<string>)
    requires global.Valid()
    modifies global
    ensures global.Valid()
    ensures global.requestCount == old(global.requestCount) + 1
    ensures success ==> global.successCount == old(global.successCount) + 1 && global.errorCount == old(global.errorCount)
    ensures !success ==> global.successCount == old(global.successCount) && global.errorCount == old(global.errorCount) + 1
    ensures global.errorsByType == if success then old(global.errorsByType) else Tallied(old(global.errorsByType), errorType)
    ensures global.requestsByIntent == Tallied(old(global.requestsByIntent), intent)
    ensures global.totalResponseTime == old(global.totalResponseTime) + responseTime
    ensures global.totalTokensUsed == old(global.totalTokensUsed) + (if tokensUsed.Some? then tokensUsed.value else 0)
  {
    global.RecordRequest(success, responseTime, intent, tokensUsed, errorType);
  }
}
