// The Prometheus bridge of internal/core/metrics/prometheus.go: metric and
// label names normalised to Prometheus' character set, and one collector
// vector per metric kind and key (source "_" normalised name), created on
// the first metric and written on every one. The Prometheus library itself
// is not modelled: a vector is the options it was created with, and each
// write is recorded as an update. Go ranges over a map in an arbitrary order
// that changes from one loop to the next, so each loop over a label map is
// given that order as a parameter.
module PrometheusMetrics {
  import opened Wrappers
  import opened Seqs

  const CounterType := "counter"
  const GaugeType := "gauge"
  const HistogramType := "histogram"
  const SummaryType := "summary"

  datatype MetricKind = Counter | Gauge | Histogram | Summary

  /** The metric types RecordMetric dispatches on. */
  function KindOf(metricType: string): (k: Option<MetricKind>)
    ensures k == Some(Counter) <==> metricType == CounterType
    ensures k == Some(Gauge) <==> metricType == GaugeType
    ensures k == Some(Histogram) <==> metricType == HistogramType
    ensures k == Some(Summary) <==> metricType == SummaryType
    ensures k.None? <==> metricType !in {CounterType, GaugeType, HistogramType, SummaryType}
  {
    if metricType == CounterType then Some(Counter)
    else if metricType == GaugeType then Some(Gauge)
    else if metricType == HistogramType then Some(Histogram)
    else if metricType == SummaryType then Some(Summary)
    else None
  }

  // ---------------------------------------------------------------------
  // Names.

  predicate IsDigit(c: char) { '0' <= c <= '9' }

  predicate IsAlnum(c: char)
  {
    ('a' <= c <= 'z') || ('A' <= c <= 'Z') || IsDigit(c)
  }

  /** The characters a normalised name is made of. */
  predicate IsNameChar(c: char)
  {
    IsAlnum(c) || c == '_'
  }

  /** The rune map of normalizeMetricName: letters and digits stay, anything else is '_'. */
  function MapRunes(s: string): (r: string)
    ensures |r| == |s|
    ensures forall i :: 0 <= i < |s| ==> (IsNameChar(r[i]) && (IsAlnum(s[i]) ==> r[i] == s[i])
      && (!IsAlnum(s[i]) ==> r[i] == '_'))
  {
    seq(|s|, i requires 0 <= i < |s| => if IsAlnum(s[i]) then s[i] else '_')
  }

  const DigitPrefix := "m_"

  /** normalizeMetricName. */
  function Normalize(name: string): (r: string)
    ensures forall i :: 0 <= i < |r| ==> IsNameChar(r[i])
    ensures |r| > 0 ==> !IsDigit(r[0])
    ensures |name| > 0 && IsDigit(name[0]) ==> |r| == |name| + 2 && r[..2] == DigitPrefix
    ensures !(|name| > 0 && IsDigit(name[0])) ==> |r| == |name|
    ensures forall i :: 0 <= i < |name| && IsAlnum(name[i]) ==> r[|r| - |name| + i] == name[i]
  {
    var mapped := MapRunes(name);
    if |mapped| > 0 && IsDigit(mapped[0]) then DigitPrefix + mapped else mapped
  }

  /** A normalised name is its own normal form. */
  lemma NormalizeIdempotent(name: string)
    ensures Normalize(Normalize(name)) == Normalize(name)
  {
    var r := Normalize(name);
    assert MapRunes(r) == r;
  }

  // ---------------------------------------------------------------------
  // Labels.

  /** An order in which Go may range over a map with the given keys. */
  ghost predicate IsOrder(order: seq<string>, keys: set<string>)
  {
    Distinct(order) && forall k :: k in order <==> k in keys
  }

  /** The normalised labels after the loop of normalizeLabels has gone
    * through `order`: each key is normalised, and when two keys normalise
    * alike the one ranged over last wins. */
  function NormalizedLabels(labels: map<string, string>, order: seq<string>): (r: map<string, string>)
    requires forall k :: k in order ==> k in labels
    ensures forall n :: n in r ==> forall i :: 0 <= i < |n| ==> IsNameChar(n[i])
    ensures forall n :: n in r ==> r[n] in labels.Values
    ensures |r.Keys| <= |order|
  {
    if order == [] then map[]
    else
      var k := order[|order| - 1];
      NormalizedLabels(labels, order[..|order| - 1])[Normalize(k) := labels[k]]
  }

  /** The normalised labels have exactly the normalised keys, and each value
    * is the value of a key that normalises to it. */
  lemma {:induction false} NormalizedLabelsKeys(labels: map<string, string>, order: seq<string>)
    requires forall k :: k in order ==> k in labels
    ensures forall n :: n in NormalizedLabels(labels, order) <==> exists k :: k in order && Normalize(k) == n
    ensures forall n :: n in NormalizedLabels(labels, order) ==>
      exists k :: k in order && Normalize(k) == n && NormalizedLabels(labels, order)[n] == labels[k]
  {
    if order != [] {
      var init := order[..|order| - 1];
      var last := order[|order| - 1];
      assert order == init + [last];
      NormalizedLabelsKeys(labels, init);
      var prev := NormalizedLabels(labels, init);
      var m := NormalizedLabels(labels, order);
      assert m == prev[Normalize(last) := labels[last]];
      forall n | n in m
        ensures exists k :: k in order && Normalize(k) == n && m[n] == labels[k]
      {
        if n == Normalize(last) {
          assert last in order && m[n] == labels[last];
        } else {
          assert n in prev;
          var k :| k in init && Normalize(k) == n && prev[n] == labels[k];
          assert k in order && m[n] == labels[k];
        }
      }
      forall n | exists k :: k in order && Normalize(k) == n
        ensures n in m
      {
        var k :| k in order && Normalize(k) == n;
        if k != last {
          assert k in init;
        }
      }
    }
  }

  /** When no two keys normalise alike, every value stays under its key's normal form. */
  lemma {:induction false} NormalizedLabelsKeepValues(labels: map<string, string>, order: seq<string>)
    requires forall k :: k in order ==> k in labels
    requires forall k, j :: k in labels && j in labels && Normalize(k) == Normalize(j) ==> k == j
    ensures forall k :: k in order ==> (Normalize(k) in NormalizedLabels(labels, order)
      && NormalizedLabels(labels, order)[Normalize(k)] == labels[k])
  {
    NormalizedLabelsKeys(labels, order);
    forall k | k in order
      ensures NormalizedLabels(labels, order)[Normalize(k)] == labels[k]
    {
      var j :| j in order && Normalize(j) == Normalize(k)
        && NormalizedLabels(labels, order)[Normalize(k)] == labels[j];
    }
  }

  /** One more key of the loop's order: its value goes under its normal form. */
  lemma NormalizedLabelsStep(labels: map<string, string>, order: seq<string>, i: int)
    requires forall k :: k in order ==> k in labels
    requires 0 <= i < |order|
    ensures forall k :: k in order[..i + 1] ==> k in labels
    ensures NormalizedLabels(labels, order[..i + 1]) == NormalizedLabels(labels, order[..i])[Normalize(order[i]) := labels[order[i]]]
  {
    assert order[..i + 1][..i] == order[..i];
  }

  /** normalizeLabels: nil stays nil; otherwise the loop over `order`. */
  method NormalizeLabels(labels: Option<map<string, string>>, order: seq<string>) returns (r: Option<map<string, string>>)
    requires labels.Some? ==> IsOrder(order, labels.value.Keys)
    ensures labels.None? ==> r.None?
    ensures labels.Some? ==> r == Some(NormalizedLabels(labels.value, order))
  {
    if labels.None? {
      return None;
    }
    var result: map<string, string> := map[];
    var i := 0;
    while i < |order|
      invariant 0 <= i <= |order|
      invariant result == NormalizedLabels(labels.value, order[..i])
    {
      NormalizedLabelsStep(labels.value, order, i);
      result := result[Normalize(order[i]) := labels.value[order[i]]];
      i := i + 1;
    }
    assert order[..i] == order;
    r := Some(result);
  }

  /** The label names getLabelsFromMetric lists when it ranges over `order`. */
  function LabelNames(order: seq<string>): (names: seq<string>)
    ensures |names| == |order|
    ensures forall i :: 0 <= i < |order| ==> names[i] == Normalize(order[i])
  {
    seq(|order|, i requires 0 <= i < |order| => Normalize(order[i]))
  }

  /** getLabelsFromMetric: the normalised label keys in the order ranged over,
    * nothing for nil or empty labels. */
  method GetLabelsFromMetric(labels: Option<map<string, string>>, order: seq<string>) returns (names: seq<string>)
    requires IsOrder(order, if labels.Some? then labels.value.Keys else {})
    ensures names == LabelNames(order)
    ensures forall n :: n in names <==> exists k :: k in order && Normalize(k) == n
  {
    names := [];
    var keys := if labels.Some? then labels.value.Keys else {};
    assert order != [] ==> order[0] in keys;
    if labels.None? || |labels.value| == 0 {
      assert keys == {};
      return;
    }
    var i := 0;
    while i < |order|
      invariant 0 <= i <= |order|
      invariant names == LabelNames(order[..i])
    {
      names := names + [Normalize(order[i])];
      i := i + 1;
    }
    assert order[..i] == order;
    forall n | exists k :: k in order && Normalize(k) == n
      ensures n in names
    {
      var k :| k in order && Normalize(k) == n;
      var j :| 0 <= j < |order| && order[j] == k;
      assert names[j] == n;
    }
  }

  // ---------------------------------------------------------------------
  // Metrics and vectors.

  /** A metric; `customBuckets` and `customObjectives` are the metadata's
    * "buckets" and "objectives" entries when present and of Go type
    * []float64 and map[float64]float64. */
  datatype Metric = Metric(
    id: string,
    source: string,
    metricType: string,
    name: string,
    value: real,
    labels: Option<map<string, string>>,
    customBuckets: Option<seq<real>>,
    customObjectives: Option<map<real, real>>)

  /** The options a collector vector is created with. */
  datatype VecOpts = VecOpts(
    kind: MetricKind,
    namespace: string,
    subsystem: string,
    name: string,
    help: string,
    labelNames: seq<string>,
    buckets: seq<real>,
    objectives: map<real, real>)

  /** A write to a vector: Add for a counter, Set for a gauge, Observe otherwise. */
  datatype Update = Update(kind: MetricKind, key: string, labelValues: seq<string>, value: real)

  /** The orders of the three loops over a metric's labels in one record call. */
  datatype LabelOrders = LabelOrders(creation: seq<string>, normalize: seq<string>, values: seq<string>)

  ghost predicate ValidOrders(m: Metric, o: LabelOrders)
  {
    var keys := if m.labels.Some? then m.labels.value.Keys else {};
    IsOrder(o.creation, keys) && IsOrder(o.normalize, keys) && IsOrder(o.values, keys)
  }

  const DefBuckets: seq<real> := [0.005, 0.01, 0.025, 0.05, 0.1, 0.25, 0.5, 1.0, 2.5, 5.0, 10.0]
  const DefaultObjectives: map<real, real> := map[0.5 := 0.05, 0.9 := 0.01, 0.99 := 0.001]

  /** The key of a metric's vector: its source and normalised name. */
  function VecKey(m: Metric): string
  {
    m.source + "_" + Normalize(m.name)
  }

  function HelpPrefix(k: MetricKind): string
  {
    match k
    case Counter => "Counter metric: "
    case Gauge => "Gauge metric: "
    case Histogram => "Histogram metric: "
    case Summary => "Summary metric: "
  }

  /** The buckets of a new histogram: non-empty custom ones, else the defaults. */
  function Buckets(m: Metric, defaults: seq<real>): (b: seq<real>)
    ensures m.customBuckets.Some? && |m.customBuckets.value| > 0 ==> b == m.customBuckets.value
    ensures !(m.customBuckets.Some? && |m.customBuckets.value| > 0) ==> b == defaults
  {
    if m.customBuckets.Some? && |m.customBuckets.value| > 0 then m.customBuckets.value else defaults
  }

  /** The objectives of a new summary: non-empty custom ones, else the defaults. */
  function Objectives(m: Metric): (o: map<real, real>)
    ensures m.customObjectives.Some? && |m.customObjectives.value| > 0 ==> o == m.customObjectives.value
    ensures !(m.customObjectives.Some? && |m.customObjectives.value| > 0) ==> o == DefaultObjectives
  {
    if m.customObjectives.Some? && |m.customObjectives.value| > 0 then m.customObjectives.value else DefaultObjectives
  }

  /** The options of the vector a first metric creates. Only histograms carry
    * buckets and only summaries objectives. */
  function NewVec(k: MetricKind, m: Metric, namespace: string, subsystem: string, defaults: seq<real>, labelNames: seq<string>): (v: VecOpts)
    ensures v.kind == k && v.namespace == namespace && v.subsystem == subsystem
    ensures v.name == Normalize(m.name) && v.help == HelpPrefix(k) + Normalize(m.name)
    ensures v.labelNames == labelNames
    ensures v.buckets == (if k == Histogram then Buckets(m, defaults) else [])
    ensures v.objectives == (if k == Summary then Objectives(m) else map[])
  {
    VecOpts(k, namespace, subsystem, Normalize(m.name), HelpPrefix(k) + Normalize(m.name), labelNames,
      if k == Histogram then Buckets(m, defaults) else [],
      if k == Summary then Objectives(m) else map[])
  }

  /** Go's `m[k]` on a map of strings: the zero value for a missing key. */
  function Lookup(m: map<string, string>, k: string): string
  {
    if k in m then m[k] else ""
  }

  /** The values at `names` in `table`, in order. */
  function Lookups(table: map<string, string>, names: seq<string>): (vs: seq<string>)
    ensures |vs| == |names|
    ensures forall i :: 0 <= i < |names| ==> vs[i] == Lookup(table, names[i])
  {
    seq(|names|, i requires 0 <= i < |names| => Lookup(table, names[i]))
  }

  /** The metric's labels as normalizeLabels leaves them, empty for nil. */
  function Normalized(m: Metric, o: LabelOrders): map<string, string>
    requires ValidOrders(m, o)
  {
    if m.labels.Some? then NormalizedLabels(m.labels.value, o.normalize) else map[]
  }

  /** The label values as the record methods collect them: the normalised
    * labels looked up in the order of a further loop over the metric's
    * labels, which need not be the order the vector's label names were
    * created in. */
  function LabelValuesAsWritten(m: Metric, o: LabelOrders): (r: seq<string>)
    requires ValidOrders(m, o)
    ensures |r| == |o.values|
    ensures forall i :: 0 <= i < |r| ==> r[i] == Lookup(Normalized(m, o), Normalize(o.values[i]))
  {
    Lookups(Normalized(m, o), LabelNames(o.values))
  }

  /** The label values matched to the vector's own label names. */
  function LabelValuesFor(m: Metric, o: LabelOrders, names: seq<string>): seq<string>
    requires ValidOrders(m, o)
  {
    Lookups(Normalized(m, o), names)
  }

  /** With keys that do not clash, the corrected values put each label's own
    * value under its name. */
  lemma CorrectedPairsLabels(m: Metric, o: LabelOrders)
    requires ValidOrders(m, o) && m.labels.Some?
    requires forall k, j :: k in m.labels.value && j in m.labels.value && Normalize(k) == Normalize(j) ==> k == j
    ensures |LabelValuesFor(m, o, LabelNames(o.creation))| == |o.creation|
    ensures forall i :: 0 <= i < |o.creation| ==>
      LabelValuesFor(m, o, LabelNames(o.creation))[i] == m.labels.value[o.creation[i]]
  {
    var labels := m.labels.value;
    var table := NormalizedLabels(labels, o.normalize);
    NormalizedLabelsKeepValues(labels, o.normalize);
    assert Normalized(m, o) == table;
    var names := LabelNames(o.creation);
    var values := LabelValuesFor(m, o, names);
    assert values == Lookups(table, names);
    forall i | 0 <= i < |o.creation|
      ensures values[i] == labels[o.creation[i]]
    {
      var k := o.creation[i];
      assert k in o.normalize;
      assert names[i] == Normalize(k);
      assert Normalize(k) in table && table[Normalize(k)] == labels[k];
      assert values[i] == Lookup(table, names[i]);
    }
  }

  /** The label ranged over last keeps its value under its normal form. */
  lemma NormalizedLast(labels: map<string, string>, order: seq<string>)
    requires order != [] && forall k :: k in order ==> k in labels
    ensures Normalize(order[|order| - 1]) in NormalizedLabels(labels, order)
    ensures NormalizedLabels(labels, order)[Normalize(order[|order| - 1])] == labels[order[|order| - 1]]
  {
  }

  /** As written, a metric with two labels a and b (of different values),
    * ranged over as a, b when the vector is created and as b, a when the
    * values are collected, has b's value written under a's name. */
  lemma SwappedLabelValues(a: string, b: string, va: string, vb: string)
    requires a != b && va != vb
    ensures var m := Metric("", "src", CounterType, "requests", 1.0, Some(map[a := va, b := vb]), None, None);
      var o := LabelOrders([a, b], [a, b], [b, a]);
      ValidOrders(m, o) && LabelNames(o.creation)[0] == Normalize(a)
      && LabelValuesAsWritten(m, o)[0] == vb && m.labels.value[a] == va != vb
  {
    var labels := map[a := va, b := vb];
    var m := Metric("", "src", CounterType, "requests", 1.0, Some(labels), None, None);
    var o := LabelOrders([a, b], [a, b], [b, a]);
    assert labels.Keys == {a, b};
    assert ValidOrders(m, o);
    NormalizedLast(labels, o.normalize);
    assert LabelNames(o.values)[0] == Normalize(b);
  }

  /** LookupValues: the loop of the record methods that looks the label
    * values up one name at a time. */
  method LookupValues(table: map<string, string>, names: seq<string>) returns (values: seq<string>)
    ensures values == Lookups(table, names)
  {
    values := [];
    var i := 0;
    while i < |names|
      invariant 0 <= i <= |names|
      invariant |values| == i
      invariant forall j :: 0 <= j < i ==> values[j] == Lookup(table, names[j])
    {
      values := values + [Lookup(table, names[i])];
      i := i + 1;
    }
  }

  class PrometheusBridge {
    var counters: map<string, VecOpts>
    var gauges: map<string, VecOpts>
    var histograms: map<string, VecOpts>
    var summaries: map<string, VecOpts>
    /** Every vector created, under its key. Go's registry panics before a
      * second vector with the same fully-qualified name is stored, so the
      * model's replacement under a shared key is a case Go never reaches. */
    var collectors: map<string, VecOpts>
    var defaultBuckets: seq<real>
    const namespace: string
    const subsystem: string
    /** The writes made to the vectors, oldest first. */
    var updates: seq<Update>

    /** NewPrometheusBridge. */
    constructor(namespace: string, subsystem: string)
      ensures this.namespace == namespace && this.subsystem == subsystem
      ensures counters == gauges == histograms == summaries == collectors == map[]
      ensures defaultBuckets == DefBuckets && updates == []
    {
      this.namespace := namespace;
      this.subsystem := subsystem;
      counters, gauges, histograms, summaries, collectors := map[], map[], map[], map[], map[];
      defaultBuckets := DefBuckets;
      updates := [];
    }

    /** SetDefaultBuckets. */
    method SetDefaultBuckets(buckets: seq<real>)
      modifies this
      ensures defaultBuckets == buckets
      ensures counters == old(counters) && gauges == old(gauges) && histograms == old(histograms)
      ensures summaries == old(summaries) && collectors == old(collectors) && updates == old(updates)
    {
      defaultBuckets := buckets;
    }

    /** The vectors of one kind. */
    function Vecs(k: MetricKind): map<string, VecOpts>
      reads this`counters, this`gauges, this`histograms, this`summaries
    {
      match k
      case Counter => counters
      case Gauge => gauges
      case Histogram => histograms
      case Summary => summaries
    }

    /** The vectors after the one under the metric's key was created if it
      * was missing; the updates are not part of it. */
    twostate predicate Created(k: MetricKind, m: Metric, o: LabelOrders)
      reads this`counters, this`gauges, this`histograms, this`summaries, this`collectors, this`defaultBuckets
      requires ValidOrders(m, o)
    {
      var key := VecKey(m);
      var created := key !in old(Vecs(k));
      var v := NewVec(k, m, namespace, subsystem, old(defaultBuckets), LabelNames(o.creation));
      (forall j :: j != k ==> Vecs(j) == old(Vecs(j)))
      && Vecs(k) == (if created then old(Vecs(k))[key := v] else old(Vecs(k)))
      && collectors == (if created then old(collectors)[key := v] else old(collectors))
      && defaultBuckets == old(defaultBuckets)
    }

    /** The state after one record call of kind `k` takes `values` as its
      * label values. */
    twostate predicate Recorded(k: MetricKind, m: Metric, o: LabelOrders, values: seq<string>)
      reads this
      requires ValidOrders(m, o)
    {
      Created(k, m, o) && updates == old(updates) + [Update(k, VecKey(m), values, m.value)]
    }

    /** The vector under the metric's key, created on first use. */
    method EnsureVec(k: MetricKind, m: Metric, o: LabelOrders)
      requires ValidOrders(m, o)
      modifies this
      ensures VecKey(m) in Vecs(k)
      ensures Created(k, m, o) && updates == old(updates)
    {
      var name := Normalize(m.name);
      var key := m.source + "_" + name;
      if key !in Vecs(k) {
        var labelNames := GetLabelsFromMetric(m.labels, o.creation);
        Store(k, key, NewVec(k, m, namespace, subsystem, defaultBuckets, labelNames));
      }
    }

    /** Stores a newly created vector of kind `k`. */
    method Store(k: MetricKind, key: string, v: VecOpts)
      modifies this
      ensures forall j :: j != k ==> Vecs(j) == old(Vecs(j))
      ensures Vecs(k) == old(Vecs(k))[key := v] && collectors == old(collectors)[key := v]
      ensures defaultBuckets == old(defaultBuckets) && updates == old(updates)
    {
      match k {
        case Counter => counters := counters[key := v];
        case Gauge => gauges := gauges[key := v];
        case Histogram => histograms := histograms[key := v];
        case Summary => summaries := summaries[key := v];
      }
      collectors := collectors[key := v];
    }

    /** recordCounter, recordGauge, recordHistogram and recordSummary, which
      * differ only in the kind of vector: the vector under the metric's key
      * is created on first use, and the metric's value is written to it with
      * the label values collected in the order of the value loop. */
    method Record(k: MetricKind, m: Metric, o: LabelOrders)
      requires ValidOrders(m, o)
      modifies this
      ensures Recorded(k, m, o, LabelValuesAsWritten(m, o))
    {
      EnsureVec(k, m, o);
      var values := CollectValues(m, o);
      updates := updates + [Update(k, m.source + "_" + Normalize(m.name), values, m.value)];
    }

    /** The corrected record: the values follow the vector's own label names. */
    method RecordCorrected(k: MetricKind, m: Metric, o: LabelOrders)
      requires ValidOrders(m, o)
      modifies this
      ensures VecKey(m) in Vecs(k)
      ensures Recorded(k, m, o, LabelValuesFor(m, o, Vecs(k)[VecKey(m)].labelNames))
    {
      EnsureVec(k, m, o);
      var key := m.source + "_" + Normalize(m.name);
      var normalized := NormalizeLabels(m.labels, o.normalize);
      var table := if normalized.Some? then normalized.value else map[];
      var values := LookupValues(table, Vecs(k)[key].labelNames);
      updates := updates + [Update(k, key, values, m.value)];
    }

    /** RecordMetric: dispatch on the metric's type; any other type is an
      * error and changes nothing. */
    method RecordMetric(m: Metric, o: LabelOrders) returns (err: Option<string>)
      requires ValidOrders(m, o)
      modifies this
      ensures KindOf(m.metricType).None? ==> (err == Some("unsupported metric type: " + m.metricType)
        && counters == old(counters) && gauges == old(gauges) && histograms == old(histograms)
        && summaries == old(summaries) && collectors == old(collectors)
        && defaultBuckets == old(defaultBuckets) && updates == old(updates))
      ensures KindOf(m.metricType).Some? ==> (err.None?
        && Recorded(KindOf(m.metricType).value, m, o, LabelValuesAsWritten(m, o)))
    {
      var k := KindOf(m.metricType);
      if k.None? {
        return Some("unsupported metric type: " + m.metricType);
      }
      Record(k.value, m, o);
      err := None;
    }

    /** GetCollectors: a copy of the collectors. */
    method GetCollectors() returns (r: map<string, VecOpts>)
      ensures r == collectors
    {
      r := map[];
      var left := collectors.Keys;
      while left != {}
        invariant left <= collectors.Keys
        invariant r.Keys == collectors.Keys - left
        invariant forall k :: k in r ==> r[k] == collectors[k]
        decreases |left|
      {
        var k :| k in left;
        r := r[k := collectors[k]];
        left := left - {k};
      }
    }
  }

  /** The value loop of the record methods: the normalised labels looked up
    * under the names of a fresh loop over the metric's labels. */
  method CollectValues(m: Metric, o: LabelOrders) returns (values: seq<string>)
    requires ValidOrders(m, o)
    ensures values == LabelValuesAsWritten(m, o)
  {
    var normalized := NormalizeLabels(m.labels, o.normalize);
    var table := if normalized.Some? then normalized.value else map[];
    var names := GetLabelsFromMetric(m.labels, o.values);
    values := LookupValues(table, names);
  }
}
