// The statistics of the load test harness in tests/load/load_test.go: the
// results a run collects, the per-interval report and the final report with
// its success counts, error distribution, latency extremes, mean and
// percentiles. Durations are whole nanoseconds; the clock, the goroutines
// that send requests and the CPU figures (floating point) are not modelled.
module LoadStats {
  import opened Seqs

  const Millisecond := 1000000
  const Second := 1000 * Millisecond
  const Minute := 60 * Second
  const Hour := 60 * Minute

  /** The range of Go's uint64. */
  const U64Range := 0x1_0000_0000_0000_0000
  type U64 = x: int | 0 <= x < U64Range

  /** The settings of a run that the statistics copy or consult. */
  datatype TestConfig = TestConfig(
    duration: int,
    connections: int,
    rampUpTime: int,
    reportInterval: int,
    requestRate: real,
    requestTimeout: int,
    maxConcurrentReq: int,
    protocol: string,
    endpoints: seq<string>,
    connectionPoolSize: int,
    outputFile: string,
    metricsEnabled: bool,
    detailedStats: bool,
    resourceMonitoring: bool)

  /** NewDefaultConfig. */
  function DefaultConfig(): (c: TestConfig)
    ensures c.duration == 5 * Minute && c.connections == 100 && c.rampUpTime == 30 * Second
    ensures c.reportInterval == 10 * Second && c.requestRate == 10.0 && c.requestTimeout == 5 * Second
    ensures c.maxConcurrentReq == 500 && c.protocol == "grpc" && c.endpoints == ["/api/v1/bridge/status"]
    ensures c.connectionPoolSize == 100 && c.outputFile == "load_test_results.json"
    ensures c.metricsEnabled && c.detailedStats && c.resourceMonitoring
  {
    TestConfig(5 * Minute, 100, 30 * Second, 10 * Second, 10.0, 5 * Second, 500, "grpc",
      ["/api/v1/bridge/status"], 100, "load_test_results.json", true, true, true)
  }

  /** One request's outcome; its start and end times only enter as the duration. */
  datatype RequestResult = RequestResult(connectionID: int, duration: int, success: bool, error: string, endpoint: string)

  /** The statistics of one reporting interval (the CPU figure is left out). */
  datatype IntervalStat = IntervalStat(
    timestamp: int,
    duration: int,
    requests: nat,
    successes: nat,
    failures: nat,
    avgLatency: int,
    maxLatency: int,
    memoryUsageBytes: U64)

  /** The final report, without the floating-point rates and CPU figures. */
  datatype TestResult = TestResult(
    config: TestConfig,
    totalRequests: nat,
    successfulRequests: nat,
    failedRequests: nat,
    totalDuration: int,
    minLatency: int,
    maxLatency: int,
    meanLatency: int,
    medianLatency: int,
    p95Latency: int,
    p99Latency: int,
    avgMemoryUsage: U64,
    maxMemoryUsage: U64,
    errorDistribution: map<string, nat>,
    timeSeriesData: seq<IntervalStat>)

  // ---------------------------------------------------------------------
  // What the loops compute, as functions of the results.

  function SuccessLatency(r: RequestResult): seq<int>
  {
    if r.success then [r.duration] else []
  }

  function FailureError(r: RequestResult): seq<string>
  {
    if r.success then [] else [r.error]
  }

  /** The durations of the successful requests, in order. */
  function Latencies(rs: seq<RequestResult>): seq<int>
  {
    FlatMap(rs, SuccessLatency)
  }

  /** The error texts of the failed requests, in order. */
  function FailureErrors(rs: seq<RequestResult>): seq<string>
  {
    FlatMap(rs, FailureError)
  }

  function Sum(ds: seq<int>): int
  {
    if ds == [] then 0 else Sum(ds[..|ds| - 1]) + ds[|ds| - 1]
  }

  /** The largest of `floor` and the values: a running maximum started at `floor`. */
  function Highest(ds: seq<int>, floor: int): (m: int)
    ensures m >= floor
    ensures forall i :: 0 <= i < |ds| ==> ds[i] <= m
    ensures m == floor || m in ds
  {
    if ds == [] then floor
    else
      var m := Highest(ds[..|ds| - 1], floor);
      if ds[|ds| - 1] > m then ds[|ds| - 1] else m
  }

  /** The smallest of `ceiling` and the values: a running minimum started at `ceiling`. */
  function Lowest(ds: seq<int>, ceiling: int): (m: int)
    ensures m <= ceiling
    ensures forall i :: 0 <= i < |ds| ==> m <= ds[i]
    ensures m == ceiling || m in ds
  {
    if ds == [] then ceiling
    else
      var m := Lowest(ds[..|ds| - 1], ceiling);
      if ds[|ds| - 1] < m then ds[|ds| - 1] else m
  }

  /** Go's integer division, which truncates toward zero. */
  function GoDiv(a: int, b: int): (q: int)
    requires b > 0
    ensures a >= 0 ==> 0 <= q * b <= a < (q + 1) * b
    ensures a < 0 ==> (q - 1) * b < a <= q * b <= 0
  {
    if a >= 0 then
      TruncDiv(a, b);
      a / b
    else
      TruncDiv(-a, b);
      -((-a) / b)
  }

  lemma TruncDiv(a: nat, b: int)
    requires b > 0
    ensures 0 <= (a / b) * b <= a < (a / b) * b + b
  {
  }

  // ---------------------------------------------------------------------
  // calculatePercentile.

  /** The index the percentile reads: ceil(n * p / 100) - 1, clamped to the data. */
  function PercentileIndex(n: nat, p: int): (i: int)
    requires n > 0
    ensures 0 <= i < n
    ensures 0 < p <= 100 ==> i * 100 < n * p <= (i + 1) * 100
  {
    var np := n * p;
    var c := (np + 99) / 100 - 1;
    assert (c + 1) * 100 <= np + 99 < (c + 2) * 100;
    MulBounds(n, p);
    if c < 0 then 0 else if c >= n then n - 1 else c
  }

  lemma MulBounds(n: nat, p: int)
    ensures 0 < p <= 100 ==> n <= n * p <= 100 * n
  {
  }

  /** calculatePercentile: 0 without data, otherwise one of the data. The
    * data are meant to be sorted; the function does not check. */
  function Percentile(data: seq<int>, p: int): (r: int)
    ensures data == [] ==> r == 0
    ensures data != [] ==> r in data
  {
    if data == [] then 0 else data[PercentileIndex(|data|, p)]
  }

  predicate Sorted(s: seq<int>)
  {
    forall i, j :: 0 <= i < j < |s| ==> s[i] <= s[j]
  }

  /** On sorted data the result is a p-th percentile: every value whose rank
    * lies below p percent of the data is at most the result, and every value
    * from that rank on is at least the result. */
  lemma PercentileRank(data: seq<int>, p: int)
    requires Sorted(data) && data != [] && 0 < p <= 100
    ensures forall j :: 0 <= j < |data| && j * 100 < |data| * p ==> data[j] <= Percentile(data, p)
    ensures forall j :: 0 <= j < |data| && |data| * p <= j * 100 ==> Percentile(data, p) <= data[j]
  {
    var i := PercentileIndex(|data|, p);
    forall j | 0 <= j < |data| && j * 100 < |data| * p
      ensures data[j] <= data[i]
    {
      assert j < i + 1;
    }
    forall j | 0 <= j < |data| && |data| * p <= j * 100
      ensures data[i] <= data[j]
    {
      assert i < j;
    }
  }

  lemma MulMono(n: nat, p: int, q: int)
    requires p <= q
    ensures n * p <= n * q
  {
  }

  lemma IndexMono(n: nat, p: int, q: int)
    requires n > 0 && p <= q
    ensures PercentileIndex(n, p) <= PercentileIndex(n, q)
  {
    MulMono(n, p, q);
    assert (n * p + 99) / 100 <= (n * q + 99) / 100;
  }

  /** On sorted data a higher percentile is never a smaller value. */
  lemma PercentileMonotone(data: seq<int>, p: int, q: int)
    requires Sorted(data) && p <= q
    ensures Percentile(data, p) <= Percentile(data, q)
  {
    if data != [] {
      IndexMono(|data|, p, q);
    }
  }

  // ---------------------------------------------------------------------
  // Sorting, which the report leaves out (see LatencyOrderFinding).

  lemma SortedCons(h: int, t: seq<int>)
    requires Sorted(t) && (t == [] || h <= t[0])
    ensures Sorted([h] + t)
  {
    var r := [h] + t;
    forall i, j | 0 <= i < j < |r|
      ensures r[i] <= r[j]
    {
      if i > 0 {
        assert r[i] == t[i - 1] && r[j] == t[j - 1];
      } else {
        assert r[j] == t[j - 1] && t[0] <= t[j - 1];
      }
    }
  }

  lemma SortedTail(s: seq<int>)
    requires Sorted(s) && s != []
    ensures Sorted(s[1..])
  {
  }

  function Insert(x: int, s: seq<int>): (r: seq<int>)
    requires Sorted(s)
    ensures Sorted(r) && multiset(r) == multiset(s) + multiset{x}
    ensures r != [] && (r[0] == x || (s != [] && r[0] == s[0]))
  {
    if s == [] then [x]
    else if x <= s[0] then
      SortedCons(x, s);
      [x] + s
    else
      SortedTail(s);
      var rest := Insert(x, s[1..]);
      assert s == [s[0]] + s[1..];
      assert rest[0] == x || rest[0] == s[1];
      SortedCons(s[0], rest);
      [s[0]] + rest
  }

  /** An ascending permutation. */
  function Sort(s: seq<int>): (r: seq<int>)
    ensures Sorted(r) && multiset(r) == multiset(s)
  {
    if s == [] then []
    else
      assert s == [s[0]] + s[1..];
      Insert(s[0], Sort(s[1..]))
  }

  // ---------------------------------------------------------------------
  // The statistics.

  /** The memory reading reported for an interval: the latest one, when monitoring. */
  function LatestMemory(monitoring: bool, memory: seq<U64>): U64
  {
    if monitoring && |memory| > 0 then memory[|memory| - 1] else 0
  }

  /** processIntervalData. */
  function IntervalOf(rs: seq<RequestResult>, start: int, end: int, monitoring: bool, memory: seq<U64>): IntervalStat
  {
    var ls := Latencies(rs);
    IntervalStat(end, end - start, |rs|, |ls|, |FailureErrors(rs)|,
      if |ls| > 0 then GoDiv(Sum(ls), |ls|) else 0,
      if |ls| > 0 then Highest(ls, 0) else 0,
      LatestMemory(monitoring, memory))
  }

  /** generateResults, with the percentiles read from `ordered` when
    * `sortFirst` is false as written, and from the sorted latencies otherwise. */
  function Report(cfg: TestConfig, rs: seq<RequestResult>, series: seq<IntervalStat>, duration: int,
                  memory: seq<U64>, sortFirst: bool): (r: TestResult)
    ensures r.config == cfg && r.totalRequests == |rs| && r.totalDuration == duration
    ensures r.successfulRequests == |Latencies(rs)| && r.failedRequests == |FailureErrors(rs)|
    ensures r.errorDistribution == Tally(FailureErrors(rs))
  {
    if |rs| == 0 then
      TestResult(cfg, 0, 0, 0, duration, 0, 0, 0, 0, 0, 0, 0, 0, map[], series)
    else
      var ls := Latencies(rs);
      TestResult(cfg, |rs|, |ls|, |FailureErrors(rs)|, duration,
        Lowest(ls, Hour), Highest(ls, 0), Mean(ls),
        PercentileOf(ls, sortFirst, 50), PercentileOf(ls, sortFirst, 95), PercentileOf(ls, sortFirst, 99),
        MemoryAverage(cfg.resourceMonitoring, memory), MemoryPeak(cfg.resourceMonitoring, memory),
        Tally(FailureErrors(rs)), series)
  }

  /** The average memory reading, when monitoring: the uint64 sum divided by the count. */
  function MemoryAverage(monitoring: bool, memory: seq<U64>): U64
  {
    if monitoring && |memory| > 0 then
      DivLe(WrappedSum(memory), |memory|);
      WrappedSum(memory) / |memory|
    else 0
  }

  /** The highest memory reading, when monitoring. */
  function MemoryPeak(monitoring: bool, memory: seq<U64>): U64
  {
    if monitoring && |memory| > 0 then Highest(memory, 0) else 0
  }

  lemma DivLe(a: nat, n: nat)
    requires n > 0
    ensures 0 <= a / n <= a
  {
    var q := a / n;
    assert q * n + a % n == a;
    MulAtLeast(q, n);
  }

  lemma MulAtLeast(q: int, n: int)
    requires q >= 0 && n >= 1
    ensures q * n >= q
  {
    assert q * n == q * (n - 1) + q;
    assert q * (n - 1) >= 0;
  }

  /** The mean latency, truncated as Go's duration division does. */
  function Mean(ls: seq<int>): int
  {
    if |ls| > 0 then GoDiv(Sum(ls), |ls|) else 0
  }

  /** A percentile of the latencies, in arrival order or sorted. */
  function PercentileOf(ls: seq<int>, sortFirst: bool, p: int): int
  {
    if |ls| > 0 then Percentile(if sortFirst then Sort(ls) else ls, p) else 0
  }

  // ---------------------------------------------------------------------
  // Properties of the statistics.

  /** Every request is either a success or a failure. */
  lemma {:induction false} OutcomesSplit(rs: seq<RequestResult>)
    ensures |Latencies(rs)| + |FailureErrors(rs)| == |rs|
  {
    if rs != [] {
      OutcomesSplit(rs[..|rs| - 1]);
    }
  }

  /** The latencies are exactly the durations of the successes. */
  lemma LatencyMember(rs: seq<RequestResult>, d: int)
    ensures d in Latencies(rs) <==> exists i :: 0 <= i < |rs| && rs[i].success && rs[i].duration == d
  {
    FlatMapMember(rs, SuccessLatency, d);
  }

  /** An interval counts every result once, as a success or a failure. */
  lemma IntervalCounts(rs: seq<RequestResult>, start: int, end: int, monitoring: bool, memory: seq<U64>)
    ensures IntervalOf(rs, start, end, monitoring, memory).successes + IntervalOf(rs, start, end, monitoring, memory).failures
      == IntervalOf(rs, start, end, monitoring, memory).requests == |rs|
  {
    OutcomesSplit(rs);
  }

  /** An interval's maximum latency bounds every success and is one of them,
    * or 0 when there is none above 0. */
  lemma IntervalMax(rs: seq<RequestResult>, start: int, end: int, monitoring: bool, memory: seq<U64>)
    ensures forall i :: 0 <= i < |rs| && rs[i].success ==> rs[i].duration <= IntervalOf(rs, start, end, monitoring, memory).maxLatency
    ensures var m := IntervalOf(rs, start, end, monitoring, memory).maxLatency;
      m == 0 || exists i :: 0 <= i < |rs| && rs[i].success && rs[i].duration == m
  {
    var ls := Latencies(rs);
    forall i | 0 <= i < |rs| && rs[i].success
      ensures rs[i].duration <= IntervalOf(rs, start, end, monitoring, memory).maxLatency
    {
      LatencyMember(rs, rs[i].duration);
    }
    if |ls| > 0 {
      LatencyMember(rs, Highest(ls, 0));
    }
  }

  /** The report counts every request once, and the error distribution adds
    * up to the failures, key by key the number of failures with that text. */
  lemma ReportCounts(cfg: TestConfig, rs: seq<RequestResult>, series: seq<IntervalStat>, duration: int,
                     memory: seq<U64>, sortFirst: bool)
    ensures var r := Report(cfg, rs, series, duration, memory, sortFirst);
      r.successfulRequests + r.failedRequests == r.totalRequests == |rs|
    ensures Total(Report(cfg, rs, series, duration, memory, sortFirst).errorDistribution)
      == Report(cfg, rs, series, duration, memory, sortFirst).failedRequests
    ensures forall e :: e in Report(cfg, rs, series, duration, memory, sortFirst).errorDistribution ==>
      Report(cfg, rs, series, duration, memory, sortFirst).errorDistribution[e] == multiset(FailureErrors(rs))[e]
  {
    OutcomesSplit(rs);
    if |rs| > 0 {
      TotalTally(FailureErrors(rs));
      TallyCounts(FailureErrors(rs));
    }
  }

  /** With the latencies sorted first, the median, 95th and 99th percentiles
    * are successes' latencies in that order, between the minimum and the maximum. */
  lemma CorrectedPercentilesOrdered(cfg: TestConfig, rs: seq<RequestResult>, series: seq<IntervalStat>, duration: int,
                                    memory: seq<U64>)
    requires |Latencies(rs)| > 0
    ensures var r := Report(cfg, rs, series, duration, memory, true);
      r.minLatency <= r.medianLatency <= r.p95Latency <= r.p99Latency <= r.maxLatency
    ensures var r := Report(cfg, rs, series, duration, memory, true);
      r.medianLatency in Latencies(rs) && r.p95Latency in Latencies(rs) && r.p99Latency in Latencies(rs)
  {
    var ls := Latencies(rs);
    var sorted := Sort(ls);
    PercentileMonotone(sorted, 50, 95);
    PercentileMonotone(sorted, 95, 99);
    assert |sorted| == |multiset(sorted)| == |multiset(ls)| == |ls|;
    assert forall x :: x in sorted ==> x in multiset(ls);
  }

  /** Two successes of 3 ns and 1 ns, in that order. */
  const SlowThenFast := [RequestResult(0, 3, true, "", ""), RequestResult(0, 1, true, "", "")]

  lemma SlowThenFastLatencies()
    ensures Latencies(SlowThenFast) == [3, 1]
  {
    var one := SlowThenFast[..1];
    assert one == [SlowThenFast[0]];
    assert one[..0] == [];
    assert FlatMap(one, SuccessLatency) == FlatMap(one[..0], SuccessLatency) + SuccessLatency(one[0]);
    assert Latencies(one) == [3];
  }

  lemma SortTwo()
    ensures Sort([3, 1]) == [1, 3]
  {
    assert [3, 1][1..] == [1];
    assert [1][1..] == [];
    assert Sort([1]) == [1];
  }

  /** As written, the percentiles are read from the latencies in arrival
    * order, so the median can exceed the 99th percentile; sorted first, it
    * cannot. */
  lemma LatencyOrderFinding(cfg: TestConfig)
    ensures Report(cfg, SlowThenFast, [], 0, [], false).medianLatency == 3
    ensures Report(cfg, SlowThenFast, [], 0, [], false).p99Latency == 1
    ensures Report(cfg, SlowThenFast, [], 0, [], true).medianLatency == 1
    ensures Report(cfg, SlowThenFast, [], 0, [], true).p99Latency == 3
  {
    SlowThenFastLatencies();
    SortTwo();
    assert PercentileIndex(2, 50) == 0;
    assert PercentileIndex(2, 99) == 1;
  }

  // ---------------------------------------------------------------------
  // The runner.

  class LoadTestRunner {
    var config: TestConfig
    var results: seq<RequestResult>
    var intervalData: seq<IntervalStat>
    var memoryUsage: seq<U64>
    var startTime: int
    var endTime: int

    /** NewLoadTestRunner: nothing collected yet. */
    constructor(cfg: TestConfig)
      ensures config == cfg && results == [] && intervalData == [] && memoryUsage == []
    {
      config := cfg;
      results := [];
      intervalData := [];
      memoryUsage := [];
      startTime := 0;
      endTime := 0;
    }

    /** The collector goroutine of Run: each result read from the channel is appended. */
    method Collect(r: RequestResult)
      modifies this
      ensures results == old(results) + [r]
      ensures config == old(config) && intervalData == old(intervalData) && memoryUsage == old(memoryUsage)
      ensures startTime == old(startTime) && endTime == old(endTime)
    {
      results := results + [r];
    }

    /** The memory half of monitorResources: one more reading. */
    method RecordMemory(used: U64)
      modifies this
      ensures memoryUsage == old(memoryUsage) + [used]
      ensures config == old(config) && results == old(results) && intervalData == old(intervalData)
      ensures startTime == old(startTime) && endTime == old(endTime)
    {
      memoryUsage := memoryUsage + [used];
    }

    /** processIntervalData. */
    method ProcessIntervalData(rs: seq<RequestResult>, start: int, end: int) returns (stat: IntervalStat)
      ensures stat == IntervalOf(rs, start, end, config.resourceMonitoring, memoryUsage)
    {
      var successes, failures := 0, 0;
      var totalLatency, maxLatency := 0, 0;
      var i := 0;
      while i < |rs|
        invariant 0 <= i <= |rs|
        invariant successes == |Latencies(rs[..i])| && failures == |FailureErrors(rs[..i])|
        invariant totalLatency == Sum(Latencies(rs[..i]))
        invariant maxLatency == Highest(Latencies(rs[..i]), 0)
      {
        FlatMapStep(rs, i, SuccessLatency);
        FlatMapStep(rs, i, FailureError);
        var r := rs[i];
        if r.success {
          SumSnoc(Latencies(rs[..i]), r.duration);
          HighestSnoc(Latencies(rs[..i]), r.duration, 0);
          successes := successes + 1;
          totalLatency := totalLatency + r.duration;
          if r.duration > maxLatency {
            maxLatency := r.duration;
          }
        } else {
          assert Latencies(rs[..i + 1]) == Latencies(rs[..i]);
          failures := failures + 1;
        }
        i := i + 1;
      }
      FlatMapWhole(rs, SuccessLatency);
      FlatMapWhole(rs, FailureError);
      var avg, max := 0, 0;
      if successes > 0 {
        avg := GoDiv(totalLatency, successes);
        max := maxLatency;
      }
      var memoryBytes: U64 := 0;
      if config.resourceMonitoring && |memoryUsage| > 0 {
        memoryBytes := memoryUsage[|memoryUsage| - 1];
      }
      stat := IntervalStat(end, end - start, |rs|, successes, failures, avg, max, memoryBytes);
    }

    /** The tick branch of reportIntervals: an interval with results is
      * recorded, an empty one is not. */
    method ReportInterval(current: seq<RequestResult>, start: int, t: int)
      modifies this
      ensures intervalData == old(intervalData) +
        (if |current| > 0 then [IntervalOf(current, start, t, config.resourceMonitoring, memoryUsage)] else [])
      ensures config == old(config) && results == old(results) && memoryUsage == old(memoryUsage)
      ensures startTime == old(startTime) && endTime == old(endTime)
    {
      if |current| > 0 {
        var stat := ProcessIntervalData(current, start, t);
        intervalData := intervalData + [stat];
      }
    }

    /** generateResults as written: the percentiles are read from the
      * latencies in arrival order. */
    method GenerateResults() returns (r: TestResult)
      ensures r == Report(config, results, intervalData, endTime - startTime, memoryUsage, false)
    {
      r := Generate(false);
    }

    /** generateResults with the latencies sorted before the percentiles are read. */
    method GenerateResultsCorrected() returns (r: TestResult)
      ensures r == Report(config, results, intervalData, endTime - startTime, memoryUsage, true)
    {
      r := Generate(true);
    }

    method Generate(sortFirst: bool) returns (r: TestResult)
      ensures r == Report(config, results, intervalData, endTime - startTime, memoryUsage, sortFirst)
    {
      var duration := endTime - startTime;
      if |results| == 0 {
        return TestResult(config, 0, 0, 0, duration, 0, 0, 0, 0, 0, 0, 0, 0, map[], intervalData);
      }
      var successful, failed, errors := CountOutcomes(results);
      var latencies, total, minLatency, maxLatency := LatencyStats(results);
      var mean, median, p95, p99 := LatencyFigures(latencies, total, sortFirst);
      var avgMemory, maxMemory := MemoryFigures(config.resourceMonitoring, memoryUsage);
      r := TestResult(config, |results|, successful, failed, duration, minLatency, maxLatency,
        mean, median, p95, p99, avgMemory, maxMemory, errors, intervalData);
    }
  }

  // ---------------------------------------------------------------------
  // The loops of generateResults.

  lemma SumSnoc(ds: seq<int>, d: int)
    ensures Sum(ds + [d]) == Sum(ds) + d
  {
    assert (ds + [d])[..|ds|] == ds;
  }

  lemma HighestSnoc(ds: seq<int>, d: int, floor: int)
    ensures Highest(ds + [d], floor) == if d > Highest(ds, floor) then d else Highest(ds, floor)
  {
    assert (ds + [d])[..|ds|] == ds;
  }

  lemma LowestSnoc(ds: seq<int>, d: int, ceiling: int)
    ensures Lowest(ds + [d], ceiling) == if d < Lowest(ds, ceiling) then d else Lowest(ds, ceiling)
  {
    assert (ds + [d])[..|ds|] == ds;
  }

  /** The first loop: successes, failures and the error distribution. */
  method CountOutcomes(rs: seq<RequestResult>) returns (successful: nat, failed: nat, errors: map<string, nat>)
    ensures successful == |Latencies(rs)| && failed == |FailureErrors(rs)|
    ensures errors == Tally(FailureErrors(rs))
  {
    successful, failed, errors := 0, 0, map[];
    var i := 0;
    while i < |rs|
      invariant 0 <= i <= |rs|
      invariant successful == |Latencies(rs[..i])| && failed == |FailureErrors(rs[..i])|
      invariant errors == Tally(FailureErrors(rs[..i]))
    {
      FlatMapStep(rs, i, SuccessLatency);
      FlatMapStep(rs, i, FailureError);
      if rs[i].success {
        assert FailureErrors(rs[..i + 1]) == FailureErrors(rs[..i]);
        successful := successful + 1;
      } else {
        TallySnoc(FailureErrors(rs[..i]), rs[i].error);
        failed := failed + 1;
        errors := Bump(errors, rs[i].error);
      }
      i := i + 1;
    }
    FlatMapWhole(rs, SuccessLatency);
    FlatMapWhole(rs, FailureError);
  }

  /** The second loop: the successes' latencies, their sum and extremes,
    * the minimum starting from an hour and the maximum from 0. */
  method LatencyStats(rs: seq<RequestResult>) returns (latencies: seq<int>, total: int, minLatency: int, maxLatency: int)
    ensures latencies == Latencies(rs) && total == Sum(latencies)
    ensures minLatency == Lowest(latencies, Hour) && maxLatency == Highest(latencies, 0)
  {
    latencies, total, minLatency, maxLatency := [], 0, Hour, 0;
    var i := 0;
    while i < |rs|
      invariant 0 <= i <= |rs|
      invariant LatencySoFar(rs, i, latencies, total, minLatency, maxLatency)
    {
      LatencyStep(rs, i, latencies, total, minLatency, maxLatency);
      var r := rs[i];
      if r.success {
        latencies := latencies + [r.duration];
        total := total + r.duration;
        if r.duration < minLatency {
          minLatency := r.duration;
        }
        if r.duration > maxLatency {
          maxLatency := r.duration;
        }
      }
      i := i + 1;
    }
    FlatMapWhole(rs, SuccessLatency);
  }

  /** The invariant of LatencyStats' loop after the first `i` results. */
  ghost predicate LatencySoFar(rs: seq<RequestResult>, i: nat, latencies: seq<int>, total: int,
                               minLatency: int, maxLatency: int)
    requires i <= |rs|
  {
    latencies == Latencies(rs[..i]) && total == Sum(latencies)
    && minLatency == Lowest(latencies, Hour) && maxLatency == Highest(latencies, 0)
  }

  lemma LatencyStep(rs: seq<RequestResult>, i: nat, latencies: seq<int>, total: int, minLatency: int, maxLatency: int)
    requires i < |rs| && LatencySoFar(rs, i, latencies, total, minLatency, maxLatency)
    ensures var d := rs[i].duration;
      rs[i].success ==> LatencySoFar(rs, i + 1, latencies + [d], total + d,
        if d < minLatency then d else minLatency, if d > maxLatency then d else maxLatency)
    ensures !rs[i].success ==> LatencySoFar(rs, i + 1, latencies, total, minLatency, maxLatency)
  {
    FlatMapStep(rs, i, SuccessLatency);
    var d := rs[i].duration;
    SumSnoc(latencies, d);
    LowestSnoc(latencies, d, Hour);
    HighestSnoc(latencies, d, 0);
  }

  lemma SumBound(ds: seq<U64>)
    ensures Sum(ds) >= 0
  {
    if ds != [] {
      SumBound(ds[..|ds| - 1]);
    }
  }

  /** uint64 addition, which wraps around. */
  function AddU64(a: U64, b: U64): U64
  {
    (a + b) % U64Range
  }

  /** The uint64 sum of the readings. */
  function WrappedSum(ds: seq<U64>): U64
  {
    if ds == [] then 0 else AddU64(WrappedSum(ds[..|ds| - 1]), ds[|ds| - 1])
  }

  lemma ModStep(a: int, d: int)
    ensures (a % U64Range + d) % U64Range == (a + d) % U64Range
  {
  }

  /** The wrapped sum is the sum modulo 2^64. */
  lemma {:induction false} WrappedSumMeaning(ds: seq<U64>)
    ensures WrappedSum(ds) == Sum(ds) % U64Range
  {
    if ds != [] {
      var init := ds[..|ds| - 1];
      WrappedSumMeaning(init);
      ModStep(Sum(init), ds[|ds| - 1]);
    }
  }

  lemma MemoryStep(memory: seq<U64>, i: nat)
    requires i < |memory|
    ensures WrappedSum(memory[..i + 1]) == AddU64(WrappedSum(memory[..i]), memory[i])
    ensures Highest(memory[..i + 1], 0) == if memory[i] > Highest(memory[..i], 0) then memory[i] else Highest(memory[..i], 0)
  {
    assert memory[..i + 1][..i] == memory[..i];
  }

  /** The mean and the percentiles, when there are latencies. */
  method LatencyFigures(latencies: seq<int>, total: int, sortFirst: bool) returns (mean: int, median: int, p95: int, p99: int)
    requires total == Sum(latencies)
    ensures mean == Mean(latencies)
    ensures median == PercentileOf(latencies, sortFirst, 50)
    ensures p95 == PercentileOf(latencies, sortFirst, 95)
    ensures p99 == PercentileOf(latencies, sortFirst, 99)
  {
    mean, median, p95, p99 := 0, 0, 0, 0;
    if |latencies| > 0 {
      mean := GoDiv(total, |latencies|);
      var ordered := if sortFirst then Sort(latencies) else latencies;
      median := Percentile(ordered, 50);
      p95 := Percentile(ordered, 95);
      p99 := Percentile(ordered, 99);
    }
  }

  /** The memory figures, when monitoring. */
  method MemoryFigures(monitoring: bool, memory: seq<U64>) returns (avg: U64, max: U64)
    ensures avg == MemoryAverage(monitoring, memory) && max == MemoryPeak(monitoring, memory)
  {
    avg, max := 0, 0;
    if monitoring && |memory| > 0 {
      avg, max := MemoryStats(memory);
    }
  }

  /** The memory loop: the average of the readings, whose uint64 sum wraps
    * around, and their maximum. */
  method MemoryStats(memory: seq<U64>) returns (avg: U64, max: U64)
    requires |memory| > 0
    ensures avg == WrappedSum(memory) / |memory| && max == Highest(memory, 0)
  {
    var total: U64 := 0;
    var highest: U64 := 0;
    var i := 0;
    while i < |memory|
      invariant 0 <= i <= |memory|
      invariant total == WrappedSum(memory[..i])
      invariant highest == Highest(memory[..i], 0)
    {
      MemoryStep(memory, i);
      total := AddU64(total, memory[i]);
      if memory[i] > highest {
        highest := memory[i];
      }
      i := i + 1;
    }
    assert memory[..i] == memory;
    DivLe(total, |memory|);
    avg := total / |memory|;
    max := highest;
  }
}
