// The risk analyzer of internal/security/risk/analyzer.go: an integer
// score from a baseline, weighted factors, a severity multiplier, matching
// patterns and a trend in the recent scores of the same source and event
// type, capped from above and recorded in a bounded history. Go's integer
// division truncates toward zero and is written out; the float64 trend
// ratio is a real; a slice or division that would panic makes the result
// `None`.
module RiskAnalysis {
  import opened Wrappers
  import opened RiskPatterns

  const RiskLow := 0
  const RiskMedium := 1
  const RiskHigh := 2
  const RiskCritical := 3

  datatype Config = Config(baselineRisk: int, maxRiskScore: int, maxHistoryPoints: int,
                           trendWindowSize: int, trendThreshold: real, trendRiskBoost: int)

  datatype Factor = Factor(weight: int, threshold: int, description: string)

  datatype RiskDataPoint = RiskDataPoint(timestamp: int, score: int)

  /** Go's `/` on ints: the quotient rounded toward zero. */
  function GoQuot(a: int, b: int): (q: int)
    requires b > 0
    ensures a >= 0 ==> q * b <= a < q * b + b
    ensures a < 0 ==> q * b - b < a <= q * b
  {
    if a >= 0 then a / b else -((-a) / b)
  }

  function SeverityMultiplier(severity: int): (m: int)
    ensures severity == RiskCritical ==> m == 5
    ensures severity == RiskHigh ==> m == 4
    ensures severity == RiskMedium ==> m == 3
    ensures severity == RiskLow ==> m == 2
    ensures !(RiskLow <= severity <= RiskCritical) ==> m == 1
  {
    if severity == RiskCritical then 5
    else if severity == RiskHigh then 4
    else if severity == RiskMedium then 3
    else if severity == RiskLow then 2
    else 1
  }

  function Weight(factors: map<string, Factor>, category: string): int
  {
    if category in factors then factors[category].weight else 0
  }

  /** The baseline plus the source and type factors, times the severity multiplier. */
  function BaseScore(c: Config, factors: map<string, Factor>, e: RiskEvent): int
  {
    (c.baselineRisk + Weight(factors, e.source) + Weight(factors, e.eventType)) * SeverityMultiplier(e.severity)
  }

  /** The sum of the boosts of the patterns that match the event. */
  function PatternBoost(patterns: seq<Pattern>, e: RiskEvent): int
  {
    if patterns == [] then 0
    else
      var p := patterns[|patterns| - 1];
      PatternBoost(patterns[..|patterns| - 1], e) + (if Matches(p, e) then p.riskBoost else 0)
  }

  lemma PatternBoostStep(patterns: seq<Pattern>, i: nat, e: RiskEvent)
    requires i < |patterns|
    ensures PatternBoost(patterns[..i + 1], e) ==
      PatternBoost(patterns[..i], e) + (if Matches(patterns[i], e) then patterns[i].riskBoost else 0)
  {
    assert patterns[..i + 1][..i] == patterns[..i];
  }

  /** Patterns that do not match add nothing. */
  lemma {:induction false} NoMatchNoBoost(patterns: seq<Pattern>, e: RiskEvent)
    requires forall i :: 0 <= i < |patterns| ==> !Matches(patterns[i], e)
    ensures PatternBoost(patterns, e) == 0
  {
    if patterns != [] {
      var front := patterns[..|patterns| - 1];
      assert forall i :: 0 <= i < |front| ==> front[i] == patterns[i];
      NoMatchNoBoost(front, e);
    }
  }

  function Sum(points: seq<RiskDataPoint>): int
  {
    if points == [] then 0 else Sum(points[..|points| - 1]) + points[|points| - 1].score
  }

  lemma SumStep(points: seq<RiskDataPoint>, i: nat)
    requires i < |points|
    ensures Sum(points[..i + 1]) == Sum(points[..i]) + points[i].score
  {
    assert points[..i + 1][..i] == points[..i];
  }

  /** float64(diff)/float64(earlier) > threshold; a zero divisor gives +Inf. */
  predicate TrendExceeds(diff: int, earlier: int, threshold: real)
    requires diff > 0
  {
    earlier == 0 || (diff as real) / (earlier as real) > threshold
  }

  /** The trend window: the configured size, at most the history's length. */
  function Window(c: Config, h: seq<RiskDataPoint>): int
  {
    if c.trendWindowSize > |h| then |h| else c.trendWindowSize
  }

  function RecentAvg(c: Config, h: seq<RiskDataPoint>): int
    requires 0 < Window(c, h)
  {
    var w := Window(c, h);
    GoQuot(Sum(h[|h| - w..]), w)
  }

  function EarlierAvg(c: Config, h: seq<RiskDataPoint>): int
    requires 0 < Window(c, h) && |h| > 2 * Window(c, h)
  {
    var w := Window(c, h);
    GoQuot(Sum(h[|h| - 2 * w..|h| - w]), w)
  }

  /** calculateHistoricalRiskBoost on the history of one key; `None` when
    * a window that is not positive makes the slice or the division panic. */
  function HistoryBoost(c: Config, h: seq<RiskDataPoint>): (r: Option<int>)
    ensures |h| < 2 ==> r == Some(0)
    ensures |h| >= 2 ==> (r.None? <==> c.trendWindowSize <= 0)
    ensures r.Some? ==> r.value == 0 || r.value == c.trendRiskBoost
    ensures |h| >= 2 && 0 < c.trendWindowSize && |h| <= 2 * Window(c, h) ==> r == Some(0)
    ensures r.Some? && r.value != 0 ==>
      && |h| >= 2 && 0 < Window(c, h) && |h| > 2 * Window(c, h)
      && RecentAvg(c, h) > EarlierAvg(c, h)
      && TrendExceeds(RecentAvg(c, h) - EarlierAvg(c, h), EarlierAvg(c, h), c.trendThreshold)
    ensures (&& |h| >= 2 && 0 < Window(c, h) && |h| > 2 * Window(c, h) && RecentAvg(c, h) > EarlierAvg(c, h)
             && TrendExceeds(RecentAvg(c, h) - EarlierAvg(c, h), EarlierAvg(c, h), c.trendThreshold))
      ==> r == Some(c.trendRiskBoost)
  {
    if |h| < 2 then Some(0)
    else
      var w := Window(c, h);
      if w <= 0 then None
      else if |h| > 2 * w then
        var recent := RecentAvg(c, h);
        var earlier := EarlierAvg(c, h);
        if recent > earlier && TrendExceeds(recent - earlier, earlier, c.trendThreshold) then Some(c.trendRiskBoost)
        else Some(0)
      else Some(0)
  }

  /** The score CalculateRisk returns, or `None` when the trend computation panics. */
  function RiskScore(c: Config, factors: map<string, Factor>, patterns: seq<Pattern>, h: seq<RiskDataPoint>,
                     e: RiskEvent): (r: Option<int>)
    ensures r.None? <==> HistoryBoost(c, h).None?
    ensures r.Some? ==> r.value <= c.maxRiskScore
    ensures r.Some? ==>
      var raw := BaseScore(c, factors, e) + PatternBoost(patterns, e)
                 + (if HistoryBoost(c, h).value > 0 then HistoryBoost(c, h).value else 0);
      r.value == (if raw > c.maxRiskScore then c.maxRiskScore else raw)
  {
    var boost := HistoryBoost(c, h);
    if boost.None? then None
    else
      var s := BaseScore(c, factors, e) + PatternBoost(patterns, e);
      var s' := if boost.value > 0 then s + boost.value else s;
      Some(if s' > c.maxRiskScore then c.maxRiskScore else s')
  }

  /** RiskScore assembled from the score before the trend and the trend boost. */
  lemma RiskScoreParts(c: Config, factors: map<string, Factor>, patterns: seq<Pattern>, h: seq<RiskDataPoint>,
                       e: RiskEvent, base: int, boost: Option<int>)
    requires base == BaseScore(c, factors, e) + PatternBoost(patterns, e)
    requires boost == HistoryBoost(c, h)
    ensures RiskScore(c, factors, patterns, h, e) ==
      if boost.None? then None
      else
        var s := if boost.value > 0 then base + boost.value else base;
        Some(if s > c.maxRiskScore then c.maxRiskScore else s)
  {
  }

  /** Patterns with non-negative boosts never lower the score. */
  lemma {:induction false} PatternBoostNonNegative(patterns: seq<Pattern>, e: RiskEvent)
    requires forall i :: 0 <= i < |patterns| ==> patterns[i].riskBoost >= 0
    ensures PatternBoost(patterns, e) >= 0
  {
    if patterns != [] {
      var front := patterns[..|patterns| - 1];
      assert forall i :: 0 <= i < |front| ==> front[i] == patterns[i];
      PatternBoostNonNegative(front, e);
    }
  }

  /** With non-negative pattern boosts and a trend that does not panic, the
    * score is at least the base score, or the cap when that is lower. */
  lemma RiskScoreAtLeastBase(c: Config, factors: map<string, Factor>, patterns: seq<Pattern>, h: seq<RiskDataPoint>,
                             e: RiskEvent)
    requires forall i :: 0 <= i < |patterns| ==> patterns[i].riskBoost >= 0
    requires HistoryBoost(c, h).Some?
    ensures RiskScore(c, factors, patterns, h, e).Some?
    ensures RiskScore(c, factors, patterns, h, e).value >=
      (if BaseScore(c, factors, e) < c.maxRiskScore then BaseScore(c, factors, e) else c.maxRiskScore)
  {
    PatternBoostNonNegative(patterns, e);
  }

  /** One more pattern with a non-negative boost never lowers the score,
    * and one that matches with a positive boost raises an uncapped score. */
  lemma ExtraPatternRaises(c: Config, factors: map<string, Factor>, patterns: seq<Pattern>, p: Pattern,
                           h: seq<RiskDataPoint>, e: RiskEvent)
    requires p.riskBoost >= 0 && HistoryBoost(c, h).Some?
    ensures RiskScore(c, factors, patterns + [p], h, e).value >= RiskScore(c, factors, patterns, h, e).value
    ensures Matches(p, e) && p.riskBoost > 0 && RiskScore(c, factors, patterns + [p], h, e).value < c.maxRiskScore ==>
      RiskScore(c, factors, patterns + [p], h, e).value > RiskScore(c, factors, patterns, h, e).value
  {
    var ps := patterns + [p];
    assert ps[..|ps| - 1] == patterns;
    assert PatternBoost(ps, e) == PatternBoost(patterns, e) + (if Matches(p, e) then p.riskBoost else 0);
  }

  /** recordRiskScore's new history for a key; `None` for a negative bound, where the slice panics. */
  function Record(h: seq<RiskDataPoint>, p: RiskDataPoint, maxPoints: int): (r: Option<seq<RiskDataPoint>>)
    ensures r.None? <==> maxPoints < 0
    ensures r.Some? ==> |r.value| == (if |h| + 1 > maxPoints then maxPoints else |h| + 1)
    ensures r.Some? ==> r.value == (h + [p])[|h| + 1 - |r.value|..]
    ensures r.Some? && maxPoints > 0 ==> r.value[|r.value| - 1] == p
  {
    var h' := h + [p];
    if |h'| > maxPoints then (if maxPoints < 0 then None else Some(h'[|h'| - maxPoints..]))
    else Some(h')
  }

  function HistoryKey(source: string, eventType: string): string
  {
    source + ":" + eventType
  }

  function HistoryOf(m: map<string, seq<RiskDataPoint>>, key: string): seq<RiskDataPoint>
  {
    if key in m then m[key] else []
  }

  /** Sums the scores of a run of points. */
  method SumScores(points: seq<RiskDataPoint>) returns (sum: int)
    ensures sum == Sum(points)
  {
    sum := 0;
    var i := 0;
    while i < |points|
      invariant i <= |points|
      invariant sum == Sum(points[..i])
    {
      SumStep(points, i);
      sum := sum + points[i].score;
      i := i + 1;
    }
    assert points[..i] == points;
  }

  class Analyzer {
    var config: Config
    var patterns: seq<Pattern>
    var factors: map<string, Factor>
    var contextData: map<string, Value>
    var historicalRisk: map<string, seq<RiskDataPoint>>

    constructor(c: Config)
      ensures config == c && patterns == [] && factors == map[] && contextData == map[] && historicalRisk == map[]
    {
      config := c;
      patterns := [];
      factors := map[];
      contextData := map[];
      historicalRisk := map[];
    }

    method AddFactor(category: string, f: Factor)
      modifies this
      ensures factors == old(factors)[category := f]
      ensures config == old(config) && patterns == old(patterns) && contextData == old(contextData)
      ensures historicalRisk == old(historicalRisk)
    {
      factors := factors[category := f];
    }

    method AddPattern(p: Pattern)
      modifies this
      ensures patterns == old(patterns) + [p]
      ensures config == old(config) && factors == old(factors) && contextData == old(contextData)
      ensures historicalRisk == old(historicalRisk)
    {
      patterns := patterns + [p];
    }

    method UpdateContextData(key: string, v: Value)
      modifies this
      ensures contextData == old(contextData)[key := v]
      ensures config == old(config) && factors == old(factors) && patterns == old(patterns)
      ensures historicalRisk == old(historicalRisk)
    {
      contextData := contextData[key := v];
    }

    /** calculateHistoricalRiskBoost for a source and event type. */
    method CalculateHistoricalRiskBoost(source: string, eventType: string) returns (boost: Option<int>)
      ensures boost == HistoryBoost(config, HistoryOf(historicalRisk, HistoryKey(source, eventType)))
    {
      var key := HistoryKey(source, eventType);
      if key !in historicalRisk || |historicalRisk[key]| < 2 {
        return Some(0);
      }
      var history := historicalRisk[key];
      var recentWindow := config.trendWindowSize;
      if recentWindow > |history| {
        recentWindow := |history|;
      }
      if recentWindow <= 0 {
        return None;
      }
      var sum := SumScores(history[|history| - recentWindow..]);
      var recentAvg := GoQuot(sum, recentWindow);
      if |history| > recentWindow * 2 {
        sum := SumScores(history[|history| - recentWindow * 2..|history| - recentWindow]);
        var earlierAvg := GoQuot(sum, recentWindow);
        if recentAvg > earlierAvg && TrendExceeds(recentAvg - earlierAvg, earlierAvg, config.trendThreshold) {
          return Some(config.trendRiskBoost);
        }
      }
      boost := Some(0);
    }

    /** recordRiskScore: false when the history bound makes the slice panic. */
    method RecordRiskScore(source: string, eventType: string, score: int, now: int) returns (ok: bool)
      modifies this
      ensures var key := HistoryKey(source, eventType);
        var r := Record(HistoryOf(old(historicalRisk), key), RiskDataPoint(now, score), config.maxHistoryPoints);
        && ok == r.Some?
        && historicalRisk == if r.Some? then old(historicalRisk)[key := r.value] else old(historicalRisk)
      ensures config == old(config) && factors == old(factors) && patterns == old(patterns) && contextData == old(contextData)
    {
      var key := HistoryKey(source, eventType);
      var history := if key in historicalRisk then historicalRisk[key] else [];
      history := history + [RiskDataPoint(now, score)];
      if |history| > config.maxHistoryPoints {
        if config.maxHistoryPoints < 0 {
          return false;
        }
        history := history[|history| - config.maxHistoryPoints..];
      }
      historicalRisk := historicalRisk[key := history];
      ok := true;
    }

    /** The part of CalculateRisk before the trend: baseline, factors, multiplier and pattern boosts. */
    method ScoreBeforeTrend(e: RiskEvent) returns (riskScore: int)
      ensures riskScore == BaseScore(config, factors, e) + PatternBoost(patterns, e)
    {
      riskScore := config.baselineRisk;
      if e.source in factors {
        riskScore := riskScore + factors[e.source].weight;
      }
      if e.eventType in factors {
        riskScore := riskScore + factors[e.eventType].weight;
      }
      riskScore := riskScore * SeverityMultiplier(e.severity);
      var i := 0;
      while i < |patterns|
        invariant i <= |patterns|
        invariant riskScore == BaseScore(config, factors, e) + PatternBoost(patterns[..i], e)
      {
        PatternBoostStep(patterns, i, e);
        if Matches(patterns[i], e) {
          riskScore := riskScore + patterns[i].riskBoost;
        }
        i := i + 1;
      }
      assert patterns[..i] == patterns;
    }

    /** CalculateRisk: the capped score, recorded under the event's source and
      * type; `None` when the trend or the record would panic. */
    method CalculateRisk(e: RiskEvent, now: int) returns (score: Option<int>)
      modifies this
      ensures var key := HistoryKey(e.source, e.eventType);
        var r := RiskScore(config, factors, patterns, HistoryOf(old(historicalRisk), key), e);
        var rec := if r.Some? then Record(HistoryOf(old(historicalRisk), key), RiskDataPoint(now, r.value), config.maxHistoryPoints) else None;
        && score == (if rec.Some? then r else None)
        && historicalRisk == if rec.Some? then old(historicalRisk)[key := rec.value] else old(historicalRisk)
      ensures config == old(config) && factors == old(factors) && patterns == old(patterns) && contextData == old(contextData)
    {
      ghost var h := HistoryOf(historicalRisk, HistoryKey(e.source, e.eventType));
      var riskScore := ScoreBeforeTrend(e);
      var boost := CalculateHistoricalRiskBoost(e.source, e.eventType);
      RiskScoreParts(config, factors, patterns, h, e, riskScore, boost);
      if boost.None? {
        return None;
      }
      if boost.value > 0 {
        riskScore := riskScore + boost.value;
      }
      if riskScore > config.maxRiskScore {
        riskScore := config.maxRiskScore;
      }
      var ok := RecordRiskScore(e.source, e.eventType, riskScore, now);
      score := if ok then Some(riskScore) else None;
    }
  }

  /** Each recorded score lands at the end of its key's history, and the
    * history never grows past the configured bound. */
  lemma RecordBounded(h: seq<RiskDataPoint>, p: RiskDataPoint, maxPoints: int)
    requires |h| <= maxPoints
    ensures Record(h, p, maxPoints).Some?
    ensures |Record(h, p, maxPoints).value| <= maxPoints
    ensures |h| < maxPoints ==> Record(h, p, maxPoints).value == h + [p]
    ensures |h| == maxPoints && maxPoints > 0 ==> Record(h, p, maxPoints).value == h[1..] + [p]
  {
    if |h| == maxPoints && maxPoints > 0 {
      assert (h + [p])[1..] == h[1..] + [p];
    }
  }
}
