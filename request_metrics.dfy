// The server's request and cache metrics: per-endpoint counters and response
// times, cache hits and misses, the statistics report and the
// record-once rule of the performance decorator.
module RequestMetrics {
  import opened Wrappers
  import opened Seqs
  import opened Dicts

  /** One endpoint's line of the report. */
  datatype EndpointStats = EndpointStats(count: nat, errors: nat, avgResponseTime: real, minResponseTime: real, maxResponseTime: real)

  /** `get_stats` without the uptime. */
  datatype Stats = Stats(totalRequests: nat, totalErrors: nat, cacheHits: nat, cacheMisses: nat,
                         cacheHitRate: real, endpoints: Dict<EndpointStats>)

  function SumNat(d: Dict<nat>): nat
  {
    if d == [] then 0 else d[0].1 + SumNat(d[1..])
  }

  /** `_calculate_cache_hit_rate` */
  function HitRate(hits: nat, misses: nat): (r: real)
    ensures 0.0 <= r <= 100.0
    ensures hits + misses == 0 ==> r == 0.0
    ensures hits + misses > 0 ==> r * (hits + misses) as real == hits as real * 100.0
  {
    if hits + misses == 0 then 0.0
    else
      var total := (hits + misses) as real;
      RatioBounds(total, misses as real);
      assert hits as real == total - misses as real;
      hits as real / total * 100.0
  }

  /** The report line of one endpoint: averages, minimum and maximum are 0
    * when it has no recorded times. */
  function EndpointOf(count: nat, errors: nat, times: seq<real>): (s: EndpointStats)
    ensures s.count == count && s.errors == errors
    ensures times == [] ==> s.avgResponseTime == 0.0 && s.minResponseTime == 0.0 && s.maxResponseTime == 0.0
    ensures times != [] ==> s.minResponseTime <= s.avgResponseTime <= s.maxResponseTime
    ensures times != [] ==> s.minResponseTime in times && s.maxResponseTime in times
    ensures forall x :: x in times ==> s.minResponseTime <= x <= s.maxResponseTime
    ensures times != [] ==> s.avgResponseTime * |times| as real == SumReal(times)
  {
    if times == [] then EndpointStats(count, errors, 0.0, 0.0, 0.0)
    else
      MinMaxBound(times);
      AverageBetween(times);
      EndpointStats(count, errors, SumReal(times) / |times| as real, MinReal(times), MaxReal(times))
  }

  lemma {:induction false} SumBetween(s: seq<real>, lo: real, hi: real)
    requires forall x :: x in s ==> lo <= x <= hi
    ensures |s| as real * lo <= SumReal(s) <= |s| as real * hi
  {
    if s != [] {
      assert s[0] in s;
      assert forall x :: x in s[1..] ==> x in s;
      SumBetween(s[1..], lo, hi);
    }
  }

  /** The mean lies between the smallest and the largest value. */
  lemma AverageBetween(s: seq<real>)
    requires s != []
    ensures MinReal(s) <= SumReal(s) / |s| as real <= MaxReal(s)
  {
    var lo, hi, sum, n := MinReal(s), MaxReal(s), SumReal(s), |s| as real;
    MinMaxBound(s);
    SumBetween(s, lo, hi);
    DivBetween(sum, n, lo, hi);
  }

  lemma DivBetween(sum: real, n: real, lo: real, hi: real)
    requires n > 0.0 && n * lo <= sum <= n * hi
    ensures lo <= sum / n <= hi
  {
    var avg := sum / n;
    assert avg * n == sum;
    if avg < lo { MulStrict(lo, avg, n); }
    if avg > hi { MulStrict(avg, hi, n); }
  }

  /** The report lines, in the order the endpoints were first recorded. */
  function EndpointsOf(requestCount: Dict<nat>, errorCount: Dict<nat>, responseTimes: Dict<seq<real>>): (r: Dict<EndpointStats>)
    ensures Keys(r) == Keys(requestCount)
    ensures forall i :: 0 <= i < |r| ==> r[i].1 == EndpointOf(requestCount[i].1, GetOr(errorCount, requestCount[i].0, 0),
                                                               GetOr(responseTimes, requestCount[i].0, []))
  {
    seq(|requestCount|, i requires 0 <= i < |requestCount| =>
      (requestCount[i].0, EndpointOf(requestCount[i].1, GetOr(errorCount, requestCount[i].0, 0),
                                     GetOr(responseTimes, requestCount[i].0, []))))
  }

  function StatsOf(requestCount: Dict<nat>, errorCount: Dict<nat>, responseTimes: Dict<seq<real>>,
                   cacheHits: nat, cacheMisses: nat): Stats
  {
    Stats(SumNat(requestCount), SumNat(errorCount), cacheHits, cacheMisses, HitRate(cacheHits, cacheMisses),
          EndpointsOf(requestCount, errorCount, responseTimes))
  }

  /** `d[k] += 1` on a `defaultdict(int)` */
  function Incr(d: Dict<nat>, k: string): Dict<nat>
  {
    Put(d, k, GetOr(d, k, 0) + 1)
  }

  /** `d[k].append(x)` on a `defaultdict(list)` */
  function AppendTo(d: Dict<seq<real>>, k: string, x: real): Dict<seq<real>>
  {
    Put(d, k, GetOr(d, k, []) + [x])
  }

  /** Incrementing one counter adds exactly one to the total. */
  lemma {:induction false} IncrSum(d: Dict<nat>, k: string)
    ensures SumNat(Incr(d, k)) == SumNat(d) + 1
  {
    if d != [] && d[0].0 != k {
      IncrSum(d[1..], k);
      assert GetOr(d, k, 0) == GetOr(d[1..], k, 0);
    }
  }

  lemma IncrGet(d: Dict<nat>, k: string, k': string)
    ensures GetOr(Incr(d, k), k', 0) == GetOr(d, k', 0) + (if k' == k then 1 else 0)
  {
    PutGet(d, k, GetOr(d, k, 0) + 1, k');
  }

  /** Counters and time lists line up: the same endpoints in the same order,
    * each count the number of its times. */
  predicate Aligned(requestCount: Dict<nat>, responseTimes: Dict<seq<real>>)
  {
    |requestCount| == |responseTimes|
    && forall i :: 0 <= i < |requestCount| ==>
      requestCount[i].0 == responseTimes[i].0 && requestCount[i].1 == |responseTimes[i].1|
  }

  /** Recording a request keeps counters and time lists lined up. */
  lemma {:induction false} RecordAligned(requestCount: Dict<nat>, responseTimes: Dict<seq<real>>, k: string, x: real)
    requires Aligned(requestCount, responseTimes)
    ensures Aligned(Incr(requestCount, k), AppendTo(responseTimes, k, x))
  {
    if requestCount != [] && requestCount[0].0 != k {
      RecordAligned(requestCount[1..], responseTimes[1..], k, x);
      assert GetOr(requestCount, k, 0) == GetOr(requestCount[1..], k, 0);
      assert GetOr(responseTimes, k, []) == GetOr(responseTimes[1..], k, []);
      var a := Incr(requestCount[1..], k);
      var b := AppendTo(responseTimes[1..], k, x);
      assert Incr(requestCount, k) == [requestCount[0]] + a;
      assert AppendTo(responseTimes, k, x) == [responseTimes[0]] + b;
    }
  }

  /** No endpoint has more errors than requests. */
  ghost predicate ErrorsBounded(requestCount: Dict<nat>, errorCount: Dict<nat>)
  {
    forall k :: GetOr(errorCount, k, 0) <= GetOr(requestCount, k, 0)
  }

  /** Recording a request keeps errors within requests, flagged or not. */
  lemma RecordErrorsBounded(requestCount: Dict<nat>, errorCount: Dict<nat>, k: string, error: bool)
    requires ErrorsBounded(requestCount, errorCount)
    ensures ErrorsBounded(Incr(requestCount, k), if error then Incr(errorCount, k) else errorCount)
  {
    var rc := Incr(requestCount, k);
    var ec := if error then Incr(errorCount, k) else errorCount;
    forall k' ensures GetOr(ec, k', 0) <= GetOr(rc, k', 0) {
      IncrGet(requestCount, k, k');
      IncrGet(errorCount, k, k');
    }
  }

  /** A recorded request adds one to the total, and one to the errors exactly
    * when flagged. */
  lemma RecordTotals(requestCount: Dict<nat>, errorCount: Dict<nat>, responseTimes: Dict<seq<real>>,
                     hits: nat, misses: nat, k: string, x: real, error: bool)
    ensures var before := StatsOf(requestCount, errorCount, responseTimes, hits, misses);
      var after := StatsOf(Incr(requestCount, k), if error then Incr(errorCount, k) else errorCount,
                           AppendTo(responseTimes, k, x), hits, misses);
      after.totalRequests == before.totalRequests + 1
      && after.totalErrors == before.totalErrors + (if error then 1 else 0)
      && after.cacheHitRate == before.cacheHitRate
  {
    IncrSum(requestCount, k);
    IncrSum(errorCount, k);
  }

  class MetricsCollector {
    var requestCount: Dict<nat>
    var errorCount: Dict<nat>
    var responseTimes: Dict<seq<real>>
    var cacheHits: nat
    var cacheMisses: nat

    ghost predicate Valid()
      reads this
    {
      Aligned(requestCount, responseTimes) && ErrorsBounded(requestCount, errorCount)
    }

    constructor()
      ensures Valid()
      ensures requestCount == [] && errorCount == [] && responseTimes == []
      ensures cacheHits == 0 && cacheMisses == 0
    {
      requestCount := [];
      errorCount := [];
      responseTimes := [];
      cacheHits := 0;
      cacheMisses := 0;
    }

    /** `record_request` */
    method RecordRequest(endpoint: string, responseTime: real, error: bool)
      requires Valid()
      modifies this
      ensures Valid()
      ensures requestCount == Incr(old(requestCount), endpoint)
      ensures responseTimes == AppendTo(old(responseTimes), endpoint, responseTime)
      ensures errorCount == if error then Incr(old(errorCount), endpoint) else old(errorCount)
      ensures cacheHits == old(cacheHits) && cacheMisses == old(cacheMisses)
    {
      RecordAligned(requestCount, responseTimes, endpoint, responseTime);
      RecordErrorsBounded(requestCount, errorCount, endpoint, error);
      requestCount := Incr(requestCount, endpoint);
      responseTimes := AppendTo(responseTimes, endpoint, responseTime);
      if error {
        errorCount := Incr(errorCount, endpoint);
      }
    }

    method RecordCacheHit()
      modifies this
      ensures cacheHits == old(cacheHits) + 1
      ensures cacheMisses == old(cacheMisses)
      ensures requestCount == old(requestCount) && errorCount == old(errorCount) && responseTimes == old(responseTimes)
    {
      cacheHits := cacheHits + 1;
    }

    method RecordCacheMiss()
      modifies this
      ensures cacheMisses == old(cacheMisses) + 1
      ensures cacheHits == old(cacheHits)
      ensures requestCount == old(requestCount) && errorCount == old(errorCount) && responseTimes == old(responseTimes)
    {
      cacheMisses := cacheMisses + 1;
    }

    /** `get_stats` */
    function GetStats(): Stats
      reads this
    {
      StatsOf(requestCount, errorCount, responseTimes, cacheHits, cacheMisses)
    }

    /** `reset` */
    method Reset()
      modifies this
      ensures Valid()
      ensures requestCount == [] && errorCount == [] && responseTimes == []
      ensures cacheHits == 0 && cacheMisses == 0
      ensures GetStats() == Stats(0, 0, 0, 0, 0.0, [])
    {
      requestCount := [];
      errorCount := [];
      responseTimes := [];
      cacheHits := 0;
      cacheMisses := 0;
    }

    /** `track_performance` around one call whose outcome is given: the call
      * is recorded once, as an error exactly when it raised, and its outcome
      * is passed on unchanged. */
    method Track<T>(endpoint: string, elapsed: real, outcome: Result<T, string>) returns (r: Result<T, string>)
      requires Valid()
      modifies this
      ensures Valid()
      ensures r == outcome
      ensures requestCount == Incr(old(requestCount), endpoint)
      ensures responseTimes == AppendTo(old(responseTimes), endpoint, elapsed)
      ensures errorCount == if outcome.Err? then Incr(old(errorCount), endpoint) else old(errorCount)
      ensures GetStats().totalRequests == old(GetStats().totalRequests) + 1
      ensures GetStats().totalErrors == old(GetStats().totalErrors) + (if outcome.Err? then 1 else 0)
    {
      RecordTotals(requestCount, errorCount, responseTimes, cacheHits, cacheMisses, endpoint, elapsed, outcome.Err?);
      RecordRequest(endpoint, elapsed, outcome.Err?);
      r := outcome;
    }
  }
}
