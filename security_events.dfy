// The event processor, alert manager and detectors of
// QUANT_WW_GO/internal/security/implementations.go. Every object the Go code
// guards with a mutex becomes a class whose fields its methods update;
// the clock and the uuid generator are parameters. Times are nanoseconds.
module SecurityEvents {
  import opened Wrappers
  import opened StrUtil
  import opened Seqs

  type Time = int

  const Hour: int := 3_600_000_000_000

  // SecurityEventType values.
  const AuthFailure := "auth_failure"
  const AccessDenied := "access_denied"
  const BruteForceAttempt := "brute_force"
  const AnomalyDetected := "anomaly_detected"
  const VulnerabilityFound := "vulnerability_found"

  // RiskLevel is an int enumeration starting at 0.
  const RiskLow := 0
  const RiskMedium := 1
  const RiskHigh := 2
  const RiskCritical := 3

  // AlertStatus values.
  const StatusNew := "new"
  const StatusAcknowledged := "acknowledged"
  const StatusInvestigating := "investigating"
  const StatusResolved := "resolved"
  const StatusFalsePositive := "false_positive"

  const MultipleAuthFailures := "multiple_auth_failures"

  datatype Event = Event(id: string, eventType: string, source: string, timestamp: Time,
                         userID: string, ipAddress: string, tags: map<string, string>)

  /** The part of a risk analysis the alerts use (score and confidence are floats). */
  datatype Analysis = Analysis(level: int, explanation: string)

  datatype EnhancedEvent = EnhancedEvent(event: Event, analysis: Analysis, previousIPs: seq<string>,
                                         userHistory: seq<Event>, patterns: seq<string>, relatedIDs: seq<string>)

  /** The history filter: one optional equality per key the Go map may hold. */
  datatype EventFilter = EventFilter(userId: Option<string>, eventType: Option<string>, ipAddress: Option<string>)

  predicate MatchesFilter(e: Event, f: EventFilter)
  {
    && (f.userId.Some? ==> e.userID == f.userId.value)
    && (f.eventType.Some? ==> e.eventType == f.eventType.value)
    && (f.ipAddress.Some? ==> e.ipAddress == f.ipAddress.value)
  }

  const NoFilter := EventFilter(None, None, None)

  /** The events of `h` that pass `f`, in history order. */
  function Matching(h: seq<EnhancedEvent>, f: EventFilter): seq<Event>
  {
    if h == [] then []
    else Matching(h[..|h| - 1], f) + (if MatchesFilter(h[|h| - 1].event, f) then [h[|h| - 1].event] else [])
  }

  lemma MatchingStep(h: seq<EnhancedEvent>, i: nat, f: EventFilter)
    requires i < |h|
    ensures Matching(h[..i + 1], f) == Matching(h[..i], f) + (if MatchesFilter(h[i].event, f) then [h[i].event] else [])
  {
    assert h[..i + 1][..i] == h[..i];
  }

  /** Matching a prefix of the history gives a prefix of the matches. */
  lemma {:induction false} MatchingPrefix(h: seq<EnhancedEvent>, j: nat, f: EventFilter)
    requires j <= |h|
    ensures |Matching(h[..j], f)| <= |Matching(h, f)|
    ensures Matching(h[..j], f) == Matching(h, f)[..|Matching(h[..j], f)|]
    decreases |h| - j
  {
    if j < |h| {
      MatchingPrefix(h, j + 1, f);
      MatchingStep(h, j, f);
    } else {
      assert h[..j] == h;
    }
  }

  /** An event is matched exactly when the history holds it and it passes the filter. */
  lemma {:induction false} MatchingMember(h: seq<EnhancedEvent>, f: EventFilter, e: Event)
    ensures e in Matching(h, f) <==> (exists i :: 0 <= i < |h| && h[i].event == e) && MatchesFilter(e, f)
  {
    if h != [] {
      var h' := h[..|h| - 1];
      MatchingMember(h', f, e);
      assert forall i :: 0 <= i < |h'| ==> h'[i] == h[i];
      if exists i :: 0 <= i < |h| && h[i].event == e {
        var i :| 0 <= i < |h| && h[i].event == e;
        if i < |h'| {
          assert h'[i].event == e;
        }
      }
    }
  }

  /** The filter that keeps everything keeps the whole history. */
  lemma {:induction false} NoFilterKeepsAll(h: seq<EnhancedEvent>)
    ensures |Matching(h, NoFilter)| == |h|
  {
    if h != [] {
      NoFilterKeepsAll(h[..|h| - 1]);
    }
  }

  /** The history after storing `e`: appended, and the oldest entry dropped when over capacity. */
  function Store(h: seq<EnhancedEvent>, e: EnhancedEvent, maxSize: nat): (r: seq<EnhancedEvent>)
    ensures |h| <= maxSize ==> |r| == if |h| + 1 <= maxSize then |h| + 1 else maxSize
    ensures |r| <= |h| + 1 && r == (h + [e])[|h| + 1 - |r|..]
  {
    var h' := h + [e];
    if |h'| > maxSize then h'[1..] else h'
  }

  /** The history after storing `es` one by one into an empty processor. */
  function StoreAll(es: seq<EnhancedEvent>, maxSize: nat): seq<EnhancedEvent>
  {
    if es == [] then [] else Store(StoreAll(es[..|es| - 1], maxSize), es[|es| - 1], maxSize)
  }

  /** The processor keeps exactly the last `maxSize` events it was given. */
  lemma {:induction false} StoreAllKeepsLast(es: seq<EnhancedEvent>, maxSize: nat)
    ensures var k := if |es| <= maxSize then |es| else maxSize; StoreAll(es, maxSize) == es[|es| - k..]
  {
    if es != [] {
      var n := |es| - 1;
      StoreAllKeepsLast(es[..n], maxSize);
      var k' := if n <= maxSize then n else maxSize;
      var h := StoreAll(es[..n], maxSize);
      SuffixAppend(es, n - k');
      assert h + [es[n]] == es[n - k'..];
      if |h| + 1 > maxSize {
        SuffixDrop(es, n - k');
      }
    }
  }

  lemma SuffixAppend<T>(s: seq<T>, j: nat)
    requires j < |s|
    ensures s[..|s| - 1][j..] + [s[|s| - 1]] == s[j..]
  {
  }

  lemma SuffixDrop<T>(s: seq<T>, j: nat)
    requires j < |s|
    ensures s[j..][1..] == s[j + 1..]
  {
  }

  /** A history entry that is an authentication failure less than an hour old. */
  function RecentFailure(now: Time): Event -> bool
  {
    (h: Event) => h.eventType == AuthFailure && now - h.timestamp < Hour
  }

  /** detectPatterns: the patterns an event shows against its user's history. */
  function Patterns(event: Event, history: seq<Event>, now: Time): seq<string>
  {
    if event.eventType == AuthFailure && CountIf(history, RecentFailure(now)) >= 3 then [MultipleAuthFailures] else []
  }

  /** The multiple-failures pattern is reported exactly for an authentication
    * failure whose history holds three or more recent failures, and each of
    * them is a history entry that is an authentication failure within the hour. */
  lemma PatternsMeaning(event: Event, history: seq<Event>, now: Time)
    ensures Patterns(event, history, now) != [] <==>
      event.eventType == AuthFailure && |Filter(history, RecentFailure(now))| >= 3
    ensures forall h :: h in Filter(history, RecentFailure(now)) ==>
      h in history && h.eventType == AuthFailure && now - h.timestamp < Hour
  {
    forall h | h in Filter(history, RecentFailure(now))
      ensures h in history && h.eventType == AuthFailure && now - h.timestamp < Hour
    {
      FilterMember(history, RecentFailure(now), h);
    }
  }

  /** One previous address: a non-empty address other than the event's own. */
  function OtherIP(current: string): Event -> seq<string>
  {
    (e: Event) => if e.ipAddress != "" && e.ipAddress != current then [e.ipAddress] else []
  }

  /** The previous addresses are non-empty, differ from the current one and
    * each comes from a history entry. */
  lemma PreviousIPsFromHistory(events: seq<Event>, current: string)
    ensures forall ip :: ip in FlatMap(events, OtherIP(current)) ==>
      ip != "" && ip != current && exists i :: 0 <= i < |events| && events[i].ipAddress == ip
  {
    forall ip | ip in FlatMap(events, OtherIP(current))
      ensures ip != "" && ip != current && exists i :: 0 <= i < |events| && events[i].ipAddress == ip
    {
      FlatMapMember(events, OtherIP(current), ip);
    }
  }

  class EventProcessor {
    var history: seq<EnhancedEvent>
    var maxSize: nat

    ghost predicate Valid()
      reads this
    {
      |history| <= maxSize
    }

    constructor(maxHistorySize: nat)
      ensures history == [] && maxSize == maxHistorySize && Valid()
    {
      history := [];
      maxSize := maxHistorySize;
    }

    /** StoreEvent: append, then trim the oldest entry when over capacity. */
    method StoreEvent(event: EnhancedEvent)
      modifies this
      ensures history == Store(old(history), event, maxSize) && maxSize == old(maxSize)
      ensures old(Valid()) ==> Valid()
      ensures maxSize > 0 ==> history[|history| - 1] == event
    {
      history := history + [event];
      if |history| > maxSize {
        history := history[1..];
      }
    }

    /** GetHistory: the matching events in history order, stopping once the
      * limit is reached; the limit is checked after each append, so at least
      * one match is returned when there is one. */
    method GetHistory(filter: EventFilter, limit: int) returns (results: seq<Event>)
      ensures results == Take(Matching(history, filter), if limit < 1 then 1 else limit)
    {
      var cap := if limit < 1 then 1 else limit;
      results := [];
      var i := 0;
      while i < |history|
        invariant 0 <= i <= |history|
        invariant results == Matching(history[..i], filter)
        invariant |results| < cap
      {
        MatchingStep(history, i, filter);
        if MatchesFilter(history[i].event, filter) {
          results := results + [history[i].event];
          if |results| >= cap {
            MatchingPrefix(history, i + 1, filter);
            return;
          }
        }
        i := i + 1;
      }
      assert history[..i] == history;
    }

    /** detectPatterns. */
    method DetectPatterns(event: Event, userHistory: seq<Event>, now: Time) returns (patterns: seq<string>)
      ensures patterns == Patterns(event, userHistory, now)
    {
      patterns := [];
      if event.eventType == AuthFailure {
        var failureCount := 0;
        var i := 0;
        while i < |userHistory|
          invariant 0 <= i <= |userHistory|
          invariant failureCount == CountIf(userHistory[..i], RecentFailure(now))
        {
          FilterStep(userHistory, i, RecentFailure(now));
          if userHistory[i].eventType == AuthFailure && now - userHistory[i].timestamp < Hour {
            failureCount := failureCount + 1;
          }
          i := i + 1;
        }
        FilterWhole(userHistory, RecentFailure(now));
        if failureCount >= 3 {
          patterns := patterns + [MultipleAuthFailures];
        }
      }
    }

    /** Process: the event with its user's last ten stored events, the other
      * addresses they came from and the patterns detected. */
    method Process(event: Event, now: Time) returns (r: EnhancedEvent)
      ensures r.event == event && r.analysis == Analysis(RiskLow, "") && r.relatedIDs == []
      ensures r.userHistory == if event.userID == "" then [] else Take(Matching(history, EventFilter(Some(event.userID), None, None)), 10)
      ensures r.previousIPs == FlatMap(r.userHistory, OtherIP(event.ipAddress))
      ensures r.patterns == Patterns(event, r.userHistory, now)
    {
      var userHistory: seq<Event> := [];
      var previousIPs: seq<string> := [];
      if event.userID != "" {
        userHistory := GetHistory(EventFilter(Some(event.userID), None, None), 10);
        var i := 0;
        while i < |userHistory|
          invariant 0 <= i <= |userHistory|
          invariant previousIPs == FlatMap(userHistory[..i], OtherIP(event.ipAddress))
        {
          FlatMapStep(userHistory, i, OtherIP(event.ipAddress));
          var e := userHistory[i];
          if e.ipAddress != "" && e.ipAddress != event.ipAddress {
            previousIPs := previousIPs + [e.ipAddress];
          }
          i := i + 1;
        }
        FlatMapWhole(userHistory, OtherIP(event.ipAddress));
      }
      var patterns := DetectPatterns(event, userHistory, now);
      r := EnhancedEvent(event, Analysis(RiskLow, ""), previousIPs, userHistory, patterns, []);
    }
  }

  /** What GetHistory returns: at most `limit` (at least one) events in
    * history order, all of them stored and passing the filter, and all of
    * the matches when there are fewer than that. */
  lemma HistoryMeaning(h: seq<EnhancedEvent>, f: EventFilter, limit: int)
    ensures var r := Take(Matching(h, f), if limit < 1 then 1 else limit);
      && |r| <= (if limit < 1 then 1 else limit)
      && (forall e :: e in r ==> MatchesFilter(e, f) && exists i :: 0 <= i < |h| && h[i].event == e)
      && (|Matching(h, f)| <= limit ==> r == Matching(h, f))
  {
    var n := if limit < 1 then 1 else limit;
    var r := Take(Matching(h, f), n);
    forall e | e in r ensures MatchesFilter(e, f) && exists i :: 0 <= i < |h| && h[i].event == e {
      assert e in Matching(h, f);
      MatchingMember(h, f, e);
    }
  }

  /** The user history Process attaches holds only that user's events. */
  lemma UserHistoryIsTheUsers(h: seq<EnhancedEvent>, user: string)
    ensures forall e :: e in Take(Matching(h, EventFilter(Some(user), None, None)), 10) ==> e.userID == user
  {
    HistoryMeaning(h, EventFilter(Some(user), None, None), 10);
  }

  datatype Alert = Alert(id: string, alertType: string, level: int, source: string, timestamp: Time,
                         description: string, eventIDs: seq<string>, status: string, assignedTo: string,
                         tags: map<string, string>)

  /** The alert filter: one optional equality per key the Go map may hold. */
  datatype AlertFilter = AlertFilter(level: Option<int>, alertType: Option<string>, source: Option<string>)

  predicate Active(a: Alert)
  {
    a.status != StatusResolved && a.status != StatusFalsePositive
  }

  predicate Selected(a: Alert, f: AlertFilter)
  {
    && Active(a)
    && (f.level.Some? ==> a.level == f.level.value)
    && (f.alertType.Some? ==> a.alertType == f.alertType.value)
    && (f.source.Some? ==> a.source == f.source.value)
  }

  /** The phrase naming an event type; unknown types are a generic security event. */
  function TypeDesc(t: string): (r: string)
    ensures r == "Security event" <==> t !in {AuthFailure, AccessDenied, BruteForceAttempt, AnomalyDetected, VulnerabilityFound}
  {
    if t == AuthFailure then "Authentication failure"
    else if t == AccessDenied then "Access denied"
    else if t == BruteForceAttempt then "Brute force attempt"
    else if t == AnomalyDetected then "Behavioral anomaly"
    else if t == VulnerabilityFound then "Vulnerability detected"
    else "Security event"
  }

  /** The phrase naming a risk level; any level other than medium, high or critical reads as low. */
  function RiskDesc(level: int): (r: string)
    ensures r == "low" <==> level !in {RiskMedium, RiskHigh, RiskCritical}
  {
    if level == RiskMedium then "medium"
    else if level == RiskHigh then "high"
    else if level == RiskCritical then "critical"
    else "low"
  }

  /** generateAlertDescription; `%v` prints a list of strings as `[a b c]`. */
  function Description(e: EnhancedEvent): (r: string)
    ensures HasPrefix(r, TypeDesc(e.event.eventType) + " detected with " + RiskDesc(e.analysis.level) + " risk")
  {
    var head := TypeDesc(e.event.eventType) + " detected with " + RiskDesc(e.analysis.level) + " risk";
    var user := if e.event.userID != "" then " for user " + e.event.userID else "";
    var ip := if e.event.ipAddress != "" then " from IP " + e.event.ipAddress else "";
    var patterns := if |e.patterns| > 0 then ". Patterns: [" + Join(e.patterns, " ") + "]" else "";
    assert (head + user + ip + patterns)[..|head|] == head;
    head + user + ip + patterns
  }

  /** The description of an event without user, address or patterns is the head phrase alone. */
  lemma PlainDescription(e: EnhancedEvent)
    requires e.event.userID == "" && e.event.ipAddress == "" && e.patterns == []
    ensures Description(e) == TypeDesc(e.event.eventType) + " detected with " + RiskDesc(e.analysis.level) + " risk"
  {
  }

  class AlertManager {
    var alerts: map<string, Alert>

    constructor()
      ensures alerts == map[]
    {
      alerts := map[];
    }

    /** CreateAlert: a new alert for the event, stored under a fresh id. */
    method CreateAlert(event: EnhancedEvent, freshID: string, now: Time) returns (alert: Alert)
      modifies this
      ensures alert.id == freshID && alert.alertType == event.event.eventType && alert.level == event.analysis.level
      ensures alert.source == event.event.source && alert.timestamp == now && alert.description == Description(event)
      ensures alert.eventIDs == [event.event.id] && alert.status == StatusNew && alert.assignedTo == ""
      ensures alert.tags == event.event.tags
      ensures alerts == old(alerts)[freshID := alert]
    {
      alert := Alert(freshID, event.event.eventType, event.analysis.level, event.event.source, now,
                     Description(event), [event.event.id], StatusNew, "", event.event.tags);
      alerts := alerts[alert.id := alert];
    }

    /** UpdateAlertStatus: an error for an unknown id; otherwise only that alert's status changes. */
    method UpdateAlertStatus(alertID: string, status: string) returns (err: Option<string>)
      modifies this
      ensures alertID !in old(alerts) ==> err == Some("alert not found: " + alertID) && alerts == old(alerts)
      ensures alertID in old(alerts) ==> err.None? && alerts == old(alerts)[alertID := old(alerts)[alertID].(status := status)]
    {
      if alertID !in alerts {
        return Some("alert not found: " + alertID);
      }
      var alert := alerts[alertID];
      alerts := alerts[alertID := alert.(status := status)];
      err := None;
    }

    /** AssignAlert: an error for an unknown id; otherwise only that alert's assignee changes. */
    method AssignAlert(alertID: string, assignee: string) returns (err: Option<string>)
      modifies this
      ensures alertID !in old(alerts) ==> err == Some("alert not found: " + alertID) && alerts == old(alerts)
      ensures alertID in old(alerts) ==> err.None? && alerts == old(alerts)[alertID := old(alerts)[alertID].(assignedTo := assignee)]
    {
      if alertID !in alerts {
        return Some("alert not found: " + alertID);
      }
      var alert := alerts[alertID];
      alerts := alerts[alertID := alert.(assignedTo := assignee)];
      err := None;
    }

    /** GetActiveAlerts: the stored alerts that are neither resolved nor
      * false positives and pass the filter, one entry per stored alert, in
      * map order. */
    method GetActiveAlerts(filter: AlertFilter) returns (results: seq<Alert>)
      ensures forall a :: a in results <==> exists id :: id in alerts && alerts[id] == a && Selected(a, filter)
      ensures |results| <= |alerts|
      ensures |results| == |set id | id in alerts && Selected(alerts[id], filter)|
    {
      var p := (a: Alert) => Selected(a, filter);
      results := SelectValues(alerts, p);
      assert Passing(alerts, p) == set id | id in alerts && Selected(alerts[id], filter);
      SubsetCard(Passing(alerts, p), alerts.Keys);
      assert |alerts.Keys| == |alerts|;
    }
  }

  /** A status change to resolved or false positive takes the alert out of every active listing. */
  lemma ClosedAlertIsNotActive(alerts: map<string, Alert>, id: string, status: string, f: AlertFilter)
    requires id in alerts && (status == StatusResolved || status == StatusFalsePositive)
    ensures !Selected(alerts[id := alerts[id].(status := status)][id], f)
  {
  }

  datatype BruteForceConfig = BruteForceConfig(maxAttempts: int, window: int, lockout: int, resetAfterSuccess: bool)

  /** The detector's two maps: failed attempt times and lock times per key. */
  datatype Guard = Guard(attempts: map<string, seq<Time>>, locks: map<string, Time>)

  function AttemptKey(userID: string, resource: string): string
  {
    userID + ":" + resource
  }

  function AttemptsOf(g: Guard, key: string): seq<Time>
  {
    if key in g.attempts then g.attempts[key] else []
  }

  function After(cutoff: Time): Time -> bool
  {
    (t: Time) => t > cutoff
  }

  predicate Locked(c: BruteForceConfig, g: Guard, key: string, now: Time)
  {
    key in g.locks && now - g.locks[key] < c.lockout
  }

  /** CheckAttempt as a transition: whether the attempt is blocked and the maps afterwards. */
  function Check(c: BruteForceConfig, g: Guard, key: string, success: bool, now: Time): (r: (bool, Guard))
    ensures Locked(c, g, key, now) ==> r == (true, g)
    ensures !Locked(c, g, key, now) && success ==>
      && !r.0 && r.1.locks == g.locks - {key}
      && r.1.attempts == (if c.resetAfterSuccess then g.attempts - {key} else g.attempts)
    ensures !Locked(c, g, key, now) && !success ==>
      && key in r.1.attempts && r.1.attempts - {key} == g.attempts - {key}
      && |r.1.attempts[key]| > 0 && r.1.attempts[key][|r.1.attempts[key]| - 1] == now
      && (forall t :: t in r.1.attempts[key] ==> t == now || (t in AttemptsOf(g, key) && t > now - c.window))
      && (r.0 <==> |r.1.attempts[key]| >= c.maxAttempts)
      && r.1.locks == (if r.0 && c.lockout > 0 then (g.locks - {key})[key := now] else g.locks - {key})
  {
    if Locked(c, g, key, now) then (true, g)
    else
      var locks := g.locks - {key};
      if success && c.resetAfterSuccess then (false, Guard(g.attempts - {key}, locks))
      else if success then (false, Guard(g.attempts, locks))
      else
        var kept := Filter(AttemptsOf(g, key), After(now - c.window));
        var valid := kept + [now];
        assert forall t :: t in kept ==> t in AttemptsOf(g, key) && t > now - c.window by {
          forall t | t in kept ensures t in AttemptsOf(g, key) && t > now - c.window {
            FilterMember(AttemptsOf(g, key), After(now - c.window), t);
          }
        }
        var blocked := |valid| >= c.maxAttempts;
        (blocked, Guard(g.attempts[key := valid], if blocked && c.lockout > 0 then locks[key := now] else locks))
  }

  /** The maps after a run of failed attempts on one key at the times `ts`. */
  function Failures(c: BruteForceConfig, g: Guard, key: string, ts: seq<Time>): Guard
  {
    if ts == [] then g else Check(c, Failures(c, g, key, ts[..|ts| - 1]), key, false, ts[|ts| - 1]).1
  }

  predicate Ascending(ts: seq<Time>)
  {
    forall i, j :: 0 <= i <= j < |ts| ==> ts[i] <= ts[j]
  }

  /** One failure on an unlocked key whose stored attempts are all inside the window. */
  lemma FailureInWindow(c: BruteForceConfig, g: Guard, key: string, now: Time)
    requires key !in g.locks
    requires forall i :: 0 <= i < |AttemptsOf(g, key)| ==> AttemptsOf(g, key)[i] > now - c.window
    ensures var r := Check(c, g, key, false, now);
      && AttemptsOf(r.1, key) == AttemptsOf(g, key) + [now]
      && (r.0 <==> |AttemptsOf(g, key)| + 1 >= c.maxAttempts)
      && (!r.0 ==> key !in r.1.locks)
      && (r.0 && c.lockout > 0 ==> r.1.locks[key] == now)
  {
    var ts := AttemptsOf(g, key);
    assert forall i :: 0 <= i < |ts| ==> After(now - c.window)(ts[i]);
    FilterAll(ts, After(now - c.window));
  }

  /** Failures inside one window accumulate: while fewer than the maximum,
    * every one of them is kept and none locks the key. */
  lemma {:induction false} FailuresAccumulate(c: BruteForceConfig, g: Guard, key: string, ts: seq<Time>)
    requires key !in g.attempts && key !in g.locks
    requires Ascending(ts) && |ts| < c.maxAttempts
    requires |ts| > 0 ==> ts[|ts| - 1] - c.window < ts[0]
    ensures AttemptsOf(Failures(c, g, key, ts), key) == ts && key !in Failures(c, g, key, ts).locks
  {
    if ts != [] {
      var ts' := ts[..|ts| - 1];
      var now := ts[|ts| - 1];
      assert Ascending(ts');
      assert |ts'| > 0 ==> ts'[|ts'| - 1] - c.window < ts'[0] by {
        if |ts'| > 0 {
          assert ts'[|ts'| - 1] == ts[|ts| - 2] <= now;
        }
      }
      FailuresAccumulate(c, g, key, ts');
      var g' := Failures(c, g, key, ts');
      assert forall i :: 0 <= i < |ts'| ==> ts'[i] > now - c.window by {
        forall i | 0 <= i < |ts'| ensures ts'[i] > now - c.window {
          assert ts[0] <= ts[i] && ts'[i] == ts[i];
        }
      }
      FailureInWindow(c, g', key, now);
      assert ts' + [now] == ts;
    }
  }

  /** The failure that reaches the maximum inside the window is blocked,
    * and locks the key at its own time when a lockout is configured. */
  lemma MaxthFailureBlocks(c: BruteForceConfig, g: Guard, key: string, ts: seq<Time>, now: Time)
    requires key !in g.attempts && key !in g.locks
    requires Ascending(ts + [now]) && |ts| + 1 == c.maxAttempts
    requires now - c.window < (ts + [now])[0]
    ensures var r := Check(c, Failures(c, g, key, ts), key, false, now);
      r.0 && (c.lockout > 0 ==> r.1.locks[key] == now)
  {
    var all := ts + [now];
    assert forall i :: 0 <= i < |ts| ==> ts[i] == all[i];
    assert Ascending(ts);
    assert |ts| > 0 ==> ts[|ts| - 1] - c.window < ts[0] by {
      if |ts| > 0 {
        assert ts[|ts| - 1] == all[|ts| - 1] <= all[|ts|] == now;
      }
    }
    FailuresAccumulate(c, g, key, ts);
    assert forall i :: 0 <= i < |ts| ==> ts[i] > now - c.window by {
      forall i | 0 <= i < |ts| ensures ts[i] > now - c.window {
        assert all[0] <= all[i];
      }
    }
    FailureInWindow(c, Failures(c, g, key, ts), key, now);
  }

  /** Right after a failure, counting with a positive window sees every kept attempt. */
  lemma CountAfterFailure(c: BruteForceConfig, g: Guard, key: string, now: Time)
    requires !Locked(c, g, key, now) && c.window > 0
    ensures var g' := Check(c, g, key, false, now).1;
      CountIf(AttemptsOf(g', key), After(now - c.window)) == |AttemptsOf(g', key)|
  {
    var ts := AttemptsOf(Check(c, g, key, false, now).1, key);
    assert forall i :: 0 <= i < |ts| ==> After(now - c.window)(ts[i]) by {
      forall i | 0 <= i < |ts| ensures ts[i] > now - c.window {
        assert ts[i] in ts;
      }
    }
    FilterAll(ts, After(now - c.window));
  }

  /** The attempts after `cutoff` (the loop building validAttempts). */
  method KeepAfter(ts: seq<Time>, cutoff: Time) returns (valid: seq<Time>)
    ensures valid == Filter(ts, After(cutoff))
  {
    valid := [];
    var i := 0;
    while i < |ts|
      invariant 0 <= i <= |ts|
      invariant valid == Filter(ts[..i], After(cutoff))
    {
      FilterStep(ts, i, After(cutoff));
      if ts[i] > cutoff {
        valid := valid + [ts[i]];
      }
      i := i + 1;
    }
    FilterWhole(ts, After(cutoff));
  }

  /** The number of attempts after `cutoff` (the loop of GetAttemptCount). */
  method CountAfter(ts: seq<Time>, cutoff: Time) returns (count: nat)
    ensures count == CountIf(ts, After(cutoff))
  {
    count := 0;
    var i := 0;
    while i < |ts|
      invariant 0 <= i <= |ts|
      invariant count == CountIf(ts[..i], After(cutoff))
    {
      FilterStep(ts, i, After(cutoff));
      if ts[i] > cutoff {
        count := count + 1;
      }
      i := i + 1;
    }
    FilterWhole(ts, After(cutoff));
  }

  class BruteForceDetector {
    var config: BruteForceConfig
    var attempts: map<string, seq<Time>>
    var locks: map<string, Time>

    constructor(c: BruteForceConfig)
      ensures config == c && attempts == map[] && locks == map[]
    {
      config := c;
      attempts := map[];
      locks := map[];
    }

    /** CheckAttempt at time `now`. */
    method CheckAttempt(userID: string, resource: string, success: bool, now: Time) returns (blocked: bool)
      modifies this
      ensures config == old(config)
      ensures (blocked, Guard(attempts, locks)) == Check(config, old(Guard(attempts, locks)), AttemptKey(userID, resource), success, now)
    {
      var key := userID + ":" + resource;
      if key in locks {
        if now - locks[key] < config.lockout {
          return true;
        }
        locks := locks - {key};
      } else {
        assert locks - {key} == locks;
      }
      if success && config.resetAfterSuccess {
        attempts := attempts - {key};
        return false;
      }
      blocked := false;
      if !success {
        var old' := if key in attempts then attempts[key] else [];
        var valid := KeepAfter(old', now - config.window);
        valid := valid + [now];
        attempts := attempts[key := valid];
        if |valid| >= config.maxAttempts {
          if config.lockout > 0 {
            locks := locks[key := now];
          }
          blocked := true;
        }
      }
    }

    /** GetAttemptCount at time `now`: the stored failures still inside the window. */
    method GetAttemptCount(userID: string, resource: string, now: Time) returns (count: nat)
      ensures count == CountIf(AttemptsOf(Guard(attempts, locks), AttemptKey(userID, resource)), After(now - config.window))
    {
      var key := userID + ":" + resource;
      var ts := if key in attempts then attempts[key] else [];
      count := CountAfter(ts, now - config.window);
    }

    /** Reset: forget the key's attempts and lock. */
    method Reset(userID: string, resource: string)
      modifies this
      ensures config == old(config)
      ensures attempts == old(attempts) - {AttemptKey(userID, resource)}
      ensures locks == old(locks) - {AttemptKey(userID, resource)}
    {
      var key := userID + ":" + resource;
      attempts := attempts - {key};
      locks := locks - {key};
    }
  }

  datatype Vulnerability = Vulnerability(id: string, vulnType: string, severity: int, resourceType: string,
                                         resourceID: string, status: string, exploitAttempts: int)

  class VulnerabilityDetector {
    var vulnerabilities: map<string, Vulnerability>

    constructor()
      ensures vulnerabilities == map[]
    {
      vulnerabilities := map[];
    }

    /** TrackExploitAttempt: one more attempt on a known vulnerability; an unknown id changes nothing. */
    method TrackExploitAttempt(vulnID: string)
      modifies this
      ensures vulnID in old(vulnerabilities) ==>
        vulnerabilities == old(vulnerabilities)[vulnID := old(vulnerabilities)[vulnID].(exploitAttempts := old(vulnerabilities)[vulnID].exploitAttempts + 1)]
      ensures vulnID !in old(vulnerabilities) ==> vulnerabilities == old(vulnerabilities)
    {
      if vulnID in vulnerabilities {
        var v := vulnerabilities[vulnID];
        vulnerabilities := vulnerabilities[vulnID := v.(exploitAttempts := v.exploitAttempts + 1)];
      }
    }

    /** GetActiveVulnerabilities: the unresolved vulnerabilities of one resource type, in map order. */
    method GetActiveVulnerabilities(resourceType: string) returns (results: seq<Vulnerability>)
      ensures forall v :: v in results <==>
        exists id :: id in vulnerabilities && vulnerabilities[id] == v && v.resourceType == resourceType && v.status != "resolved"
      ensures |results| <= |vulnerabilities|
      ensures |results| == |set id | id in vulnerabilities && vulnerabilities[id].resourceType == resourceType
                                     && vulnerabilities[id].status != "resolved"|
    {
      var p := (v: Vulnerability) => v.resourceType == resourceType && v.status != "resolved";
      results := SelectValues(vulnerabilities, p);
      assert Passing(vulnerabilities, p) == set id | id in vulnerabilities && vulnerabilities[id].resourceType == resourceType
                                                     && vulnerabilities[id].status != "resolved";
      SubsetCard(Passing(vulnerabilities, p), vulnerabilities.Keys);
      assert |vulnerabilities.Keys| == |vulnerabilities|;
    }
  }
}
