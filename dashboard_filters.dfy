// The client-side filters of archive/internal/dashboard/types.go: which
// resource metrics and which security events a dashboard client receives.
// Metric values and thresholds are Go float64s, modelled as reals.
module DashboardFilters {
  datatype MetricFilters = MetricFilters(
    types: seq<string>,
    sources: seq<string>,
    minSeverity: string,
    thresholds: map<string, real>)

  /** The fields of a resource metric the filter reads. */
  datatype ResourceMetrics = ResourceMetrics(metricType: string, source: string, value: real)

  datatype SecurityEvent = SecurityEvent(id: string, source: string, eventType: string, severity: string, message: string)

  /** The metric-level part of the filter: an empty list lets everything
    * through, a non-empty one only its members, and a configured threshold
    * for the metric's type rejects values below it. */
  function MetricPasses(f: MetricFilters, m: ResourceMetrics): (r: bool)
    ensures f.types == [] && f.sources == [] && f.thresholds == map[] ==> r
    ensures |f.types| > 0 && m.metricType !in f.types ==> !r
    ensures |f.sources| > 0 && m.source !in f.sources ==> !r
    ensures r && m.metricType in f.thresholds ==> m.value >= f.thresholds[m.metricType]
  {
    (|f.types| > 0 ==> m.metricType in f.types)
    && (|f.sources| > 0 ==> m.source in f.sources)
    && (m.metricType in f.thresholds ==> m.value >= f.thresholds[m.metricType])
  }

  /** The linear search of FilterMetrics' two loops. */
  method Member(xs: seq<string>, x: string) returns (found: bool)
    ensures found <==> x in xs
  {
    found := false;
    var i := 0;
    while i < |xs|
      invariant 0 <= i <= |xs|
      invariant x !in xs[..i]
    {
      if xs[i] == x {
        return true;
      }
      assert xs[..i + 1] == xs[..i] + [xs[i]];
      i := i + 1;
    }
    assert xs[..i] == xs;
  }

  /** FilterMetrics. */
  method FilterMetrics(f: MetricFilters, m: ResourceMetrics) returns (pass: bool)
    ensures pass <==> MetricPasses(f, m)
  {
    if |f.types| > 0 {
      var typeMatch := Member(f.types, m.metricType);
      if !typeMatch {
        return false;
      }
    }
    if |f.sources| > 0 {
      var sourceMatch := Member(f.sources, m.source);
      if !sourceMatch {
        return false;
      }
    }
    if m.metricType in f.thresholds && m.value < f.thresholds[m.metricType] {
      return false;
    }
    return true;
  }

  /** Adding a type or a source to a non-empty list never filters out more. */
  lemma WiderListsPassMore(f: MetricFilters, m: ResourceMetrics, t: string, s: string)
    requires MetricPasses(f, m) && |f.types| > 0 && |f.sources| > 0
    ensures MetricPasses(f.(types := f.types + [t], sources := f.sources + [s]), m)
  {
    assert m.metricType in f.types + [t];
    assert m.source in f.sources + [s];
  }

  /** A metric passes the unconfigured filter, and fails one whose lists leave it out. */
  lemma MetricFilterCases(f: MetricFilters, m: ResourceMetrics)
    ensures f.types == [] && f.sources == [] && f.thresholds == map[] ==> MetricPasses(f, m)
    ensures |f.types| > 0 && m.metricType !in f.types ==> !MetricPasses(f, m)
    ensures |f.sources| > 0 && m.source !in f.sources ==> !MetricPasses(f, m)
    ensures m.metricType in f.thresholds && m.value < f.thresholds[m.metricType] ==> !MetricPasses(f, m)
  {
  }

  /** The severity levels of FilterSecurityEvent; an unknown one is 0. */
  function SeverityLevel(severity: string): (l: int)
    ensures 0 <= l <= 4
    ensures l == 1 <==> severity == "low"
    ensures l == 2 <==> severity == "medium"
    ensures l == 3 <==> severity == "high"
    ensures l == 4 <==> severity == "critical"
    ensures l == 0 <==> severity !in {"low", "medium", "high", "critical"}
  {
    var levels := map["low" := 1, "medium" := 2, "high" := 3, "critical" := 4];
    if severity in levels then levels[severity] else 0
  }

  /** FilterSecurityEvent: with a minimum severity, an event passes when its
    * level is at least the minimum's. */
  function FilterSecurityEvent(f: MetricFilters, e: SecurityEvent): (pass: bool)
    ensures f.minSeverity == "" ==> pass
    ensures f.minSeverity != "" ==> (pass <==> SeverityLevel(e.severity) >= SeverityLevel(f.minSeverity))
  {
    if f.minSeverity != "" then SeverityLevel(e.severity) >= SeverityLevel(f.minSeverity) else true
  }

  /** Lowering the minimum severity lets through every event that passed before. */
  lemma LowerMinimumPassesMore(f: MetricFilters, e: SecurityEvent, lower: string)
    requires lower != "" && SeverityLevel(lower) <= SeverityLevel(f.minSeverity)
    requires FilterSecurityEvent(f, e)
    ensures FilterSecurityEvent(f.(minSeverity := lower), e)
  {
  }

  /** A critical event always passes; an event of unknown severity passes
    * only a minimum that is unknown too. */
  lemma SeverityExtremes(f: MetricFilters, e: SecurityEvent)
    ensures e.severity == "critical" ==> FilterSecurityEvent(f, e)
    ensures SeverityLevel(e.severity) == 0 && f.minSeverity != "" ==>
      (FilterSecurityEvent(f, e) <==> SeverityLevel(f.minSeverity) == 0)
  {
  }
}
