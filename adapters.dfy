// The shared adapter definitions of internal/bridge/adapters/interface.go:
// a registry of adapter factories keyed by adapter type, and the base
// adapter that keeps an adapter's status, its error and its traffic
// statistics. Factories are functions from a configuration to an adapter or
// an error; the clock is a parameter; Go's int64 counters wrap around.
module Adapters {
  import opened Wrappers
  import opened Seqs

  const Int64Range: int := 0x1_0000_0000_0000_0000
  const MinInt64: int := -0x8000_0000_0000_0000
  const MaxInt64: int := 0x7FFF_FFFF_FFFF_FFFF

  type Int64 = x: int | MinInt64 <= x <= MaxInt64

  /** Go's `a + b` on int64: two's complement wrap-around. */
  function AddInt64(a: Int64, b: Int64): (r: Int64)
    ensures MinInt64 <= a + b <= MaxInt64 ==> r == a + b
    ensures a + b > MaxInt64 ==> r == a + b - Int64Range
    ensures a + b < MinInt64 ==> r == a + b + Int64Range
  {
    if a + b > MaxInt64 then a + b - Int64Range
    else if a + b < MinInt64 then a + b + Int64Range
    else a + b
  }

  datatype AdapterStatus = Uninitialized | Initialized | Connecting | Connected
                         | Disconnecting | Disconnected | StatusError
  {
    function Name(): string
    {
      match this
      case Uninitialized => "uninitialized"
      case Initialized => "initialized"
      case Connecting => "connecting"
      case Connected => "connected"
      case Disconnecting => "disconnecting"
      case Disconnected => "disconnected"
      case StatusError => "error"
    }
  }

  /** The values an options map holds that the model tells apart. */
  datatype OptionValue = Text(s: string) | Number(n: int) | Flag(b: bool) | Other

  datatype AdapterConfig = AdapterConfig(
    name: string,
    adapterType: string,
    protocol: string,
    host: string,
    port: int,
    path: string,
    timeout: Int64,
    retryCount: int,
    retryDelay: Int64,
    options: map<string, OptionValue>)

  datatype AdapterMetadata = AdapterMetadata(
    version: string,
    capabilities: seq<string>,
    author: string,
    documentation: string,
    properties: map<string, string>)

  /** The statistics; times are clock readings, durations nanoseconds. */
  datatype AdapterStats = AdapterStats(
    messagesSent: Int64,
    messagesReceived: Int64,
    bytesSent: Int64,
    bytesReceived: Int64,
    errors: Int64,
    connectCount: Int64,
    disconnectCount: Int64,
    lastConnectTime: int,
    lastDisconnectTime: int,
    averageResponseTime: Int64,
    maxResponseTime: Int64,
    minResponseTime: Int64,
    uptime: Int64)

  const ZeroStats := AdapterStats(0, 0, 0, 0, 0, 0, 0, 0, 0, 0, 0, 0, 0)

  const ErrNotInitialized := "adapter not initialized"
  const ErrAlreadyInitialized := "adapter already initialized"
  const ErrNotConnected := "adapter not connected"
  const ErrAlreadyConnected := "adapter already connected"
  const ErrConnectionFailed := "connection failed"
  const ErrInvalidConfig := "invalid configuration"
  const ErrTimeout := "operation timed out"
  const ErrClosed := "adapter closed"
  const ErrUnknownAdapterType := "unknown adapter type"
  const ErrInvalidData := "invalid data format"

  // ---------------------------------------------------------------------
  // The registry.

  /** A factory builds an adapter of type `A` from a configuration, or fails. */
  type Factory<A> = AdapterConfig -> Result<A, string>

  /** CreateAdapter on a given table of factories. */
  function Create<A>(factories: map<string, Factory<A>>, config: AdapterConfig): (r: Result<A, string>)
    ensures config.adapterType !in factories ==> r == Err(ErrUnknownAdapterType)
    ensures config.adapterType in factories ==> r == factories[config.adapterType](config)
  {
    if config.adapterType in factories then factories[config.adapterType](config)
    else Err(ErrUnknownAdapterType)
  }

  /** Registering a factory overwrites the type's old one and leaves the
    * other types alone. */
  lemma RegisterThenCreate<A>(factories: map<string, Factory<A>>, t: string, f: Factory<A>, config: AdapterConfig)
    ensures Create(factories[t := f], config) == if config.adapterType == t then f(config) else Create(factories, config)
  {
  }

  class AdapterRegistry<A> {
    var factories: map<string, Factory<A>>

    /** NewSharedAdapterRegistry. */
    constructor()
      ensures factories == map[]
    {
      factories := map[];
    }

    /** RegisterFactory: the type now maps to `factory`, whatever it mapped to before. */
    method RegisterFactory(adapterType: string, factory: Factory<A>)
      modifies this
      ensures factories == old(factories)[adapterType := factory]
    {
      factories := factories[adapterType := factory];
    }

    /** GetFactory. */
    function GetFactory(adapterType: string): (r: Option<Factory<A>>)
      reads this
      ensures r.Some? <==> adapterType in factories
      ensures r.Some? ==> r.value == factories[adapterType]
    {
      if adapterType in factories then Some(factories[adapterType]) else None
    }

    /** CreateAdapter: the factory of the configuration's type builds the
      * adapter; an unregistered type is an error. */
    function CreateAdapter(config: AdapterConfig): (r: Result<A, string>)
      reads this
      ensures r == Create(factories, config)
    {
      match GetFactory(config.adapterType)
      case None => Err(ErrUnknownAdapterType)
      case Some(factory) => factory(config)
    }

    /** ListAdapterTypes: every registered type once, in map order. */
    method ListAdapterTypes() returns (types: seq<string>)
      ensures Distinct(types) && |types| == |factories|
      ensures forall t :: t in types <==> t in factories
    {
      types := Enumerate(factories.Keys);
    }
  }

  // ---------------------------------------------------------------------
  // The base adapter.

  predicate Sensitive(k: string)
  {
    k == "password" || k == "secret" || k == "api_key" || k == "token"
  }

  const Redacted := Text("******")

  /** The options Config hands out: when there is a "password" option every
    * sensitive option reads as stars; otherwise the options as they are. */
  function RedactedOptions(options: map<string, OptionValue>): (r: map<string, OptionValue>)
    ensures r.Keys == options.Keys
    ensures "password" !in options ==> r == options
    ensures "password" in options ==> forall k :: k in r ==> r[k] == if Sensitive(k) then Redacted else options[k]
  {
    if "password" in options then map k | k in options :: if Sensitive(k) then Redacted else options[k]
    else options
  }

  /** Redaction is idempotent and hides every sensitive value when a password is present. */
  lemma RedactionHides(options: map<string, OptionValue>)
    ensures RedactedOptions(RedactedOptions(options)) == RedactedOptions(options)
    ensures "password" in options ==> RedactedOptions(options)["password"] == Redacted
  {
  }

  /** Go's conversion of a float to a Duration, which truncates toward zero. */
  function Truncate(x: real): int
  {
    if x >= 0.0 then x.Floor else -((-x).Floor)
  }

  /** The running average after one more duration, as updateResponseTime
    * computes it for a count of two or more. */
  function NextAverage(average: Int64, duration: Int64, count: int): (r: Int64)
    requires count >= 2
    ensures Min(average, duration) <= r <= Max(average, duration)
  {
    var x := ((average as real) * ((count - 1) as real) + (duration as real)) / (count as real);
    AverageBetween(average, duration, count, x);
    Truncate(x)
  }

  function Min(a: int, b: int): int { if a <= b then a else b }
  function Max(a: int, b: int): int { if a <= b then b else a }

  /** The new average is a weighted mean of the old one and the new
    * duration, so truncation keeps it between them. */
  lemma AverageBetween(average: int, duration: int, count: int, x: real)
    requires count >= 2
    requires x == ((average as real) * ((count - 1) as real) + (duration as real)) / (count as real)
    ensures Min(average, duration) <= Truncate(x) <= Max(average, duration)
  {
    var a, d, c := average as real, duration as real, count as real;
    DivideBack(a * (c - 1.0) + d, c);
    WeightedMean(a, d, c, x);
    TruncateBetween(x, Min(average, duration), Max(average, duration));
  }

  lemma DivideBack(n: real, c: real)
    requires c > 0.0
    ensures (n / c) * c == n
  {
  }

  /** A value `x` with `x * c == a * (c - 1) + d` lies between `a` and `d`. */
  lemma WeightedMean(a: real, d: real, c: real, x: real)
    requires c >= 2.0 && x * c == a * (c - 1.0) + d
    ensures a <= d ==> a <= x <= d
    ensures d < a ==> d <= x <= a
  {
    var y := x - a;
    assert y * c == d - a;
    if a <= d {
      ScaledUp(y, c);
    } else {
      ScaledUp(-y, c);
    }
  }

  /** Scaling by at least one moves a value away from zero. */
  lemma ScaledUp(y: real, c: real)
    requires c >= 1.0 && y * c >= 0.0
    ensures 0.0 <= y <= y * c
  {
    assert y * c - y == y * (c - 1.0);
  }

  lemma TruncateBetween(x: real, lo: int, hi: int)
    requires lo as real <= x <= hi as real
    ensures lo <= Truncate(x) <= hi
  {
  }

  /** NewSharedBaseAdapter's statistics start at zero, and updateResponseTime
    * keeps min <= average <= max. */
  predicate ResponseTimesOrdered(s: AdapterStats)
  {
    s.minResponseTime <= s.averageResponseTime <= s.maxResponseTime
  }

  /** updateResponseTime: the first response sets all three figures; later
    * ones fold into the average and widen the bounds. With no message sent
    * (or a negative count) the average is left as it is. */
  function WithResponseTime(s: AdapterStats, duration: Int64): (r: AdapterStats)
    ensures r.(averageResponseTime := s.averageResponseTime, minResponseTime := s.minResponseTime,
               maxResponseTime := s.maxResponseTime) == s
    ensures s.messagesSent == 1 ==> r.averageResponseTime == r.minResponseTime == r.maxResponseTime == duration
    ensures s.messagesSent != 1 ==> (r.minResponseTime == Min(s.minResponseTime, duration)
      && r.maxResponseTime == Max(s.maxResponseTime, duration))
    ensures s.messagesSent >= 2 ==> r.averageResponseTime == NextAverage(s.averageResponseTime, duration, s.messagesSent)
    ensures s.messagesSent < 1 ==> r.averageResponseTime == s.averageResponseTime
    ensures ResponseTimesOrdered(s) ==> ResponseTimesOrdered(r)
  {
    if s.messagesSent == 1 then
      s.(averageResponseTime := duration, minResponseTime := duration, maxResponseTime := duration)
    else
      var average := if s.messagesSent >= 2 then NextAverage(s.averageResponseTime, duration, s.messagesSent)
                     else s.averageResponseTime;
      s.(averageResponseTime := average,
         minResponseTime := if duration < s.minResponseTime then duration else s.minResponseTime,
         maxResponseTime := if duration > s.maxResponseTime then duration else s.maxResponseTime)
  }

  class BaseAdapter {
    const name: string
    const adapterType: string
    const config: AdapterConfig
    const metadata: AdapterMetadata
    var status: AdapterStatus
    var stats: AdapterStats
    var lastError: Option<string>
    /** When the adapter last connected; None is Go's zero time. */
    var startTime: Option<int>

    ghost predicate Valid()
      reads this
    {
      ResponseTimesOrdered(stats)
    }

    /** NewSharedBaseAdapter. */
    constructor(name: string, adapterType: string, config: AdapterConfig, metadata: AdapterMetadata)
      ensures this.name == name && this.adapterType == adapterType
      ensures this.config == config && this.metadata == metadata
      ensures status == Uninitialized && stats == ZeroStats && lastError == None && startTime == None
      ensures Valid()
    {
      this.name := name;
      this.adapterType := adapterType;
      this.config := config;
      this.metadata := metadata;
      status := Uninitialized;
      stats := ZeroStats;
      lastError := None;
      startTime := None;
    }

    /** Config: a copy of the configuration with its options redacted. */
    method Config() returns (c: AdapterConfig)
      ensures c == config.(options := RedactedOptions(config.options))
    {
      c := config;
      if "password" in config.options {
        var newOptions: map<string, OptionValue> := map[];
        var left := config.options.Keys;
        while left != {}
          invariant left <= config.options.Keys
          invariant newOptions.Keys == config.options.Keys - left
          invariant forall k :: k in newOptions ==> newOptions[k] == if Sensitive(k) then Redacted else config.options[k]
          decreases |left|
        {
          var k :| k in left;
          if Sensitive(k) {
            newOptions := newOptions[k := Redacted];
          } else {
            newOptions := newOptions[k := config.options[k]];
          }
          left := left - {k};
        }
        c := c.(options := newOptions);
      }
    }

    /** Stats: the statistics, with the uptime since the connection when connected. */
    function Stats(now: int): (s: AdapterStats)
      reads this
      ensures s.(uptime := stats.uptime) == stats
      ensures status == Connected && startTime.Some? ==> s.uptime == Saturate(now - startTime.value)
      ensures !(status == Connected && startTime.Some?) ==> s.uptime == stats.uptime
    {
      if status == Connected && startTime.Some? then stats.(uptime := Saturate(now - startTime.value)) else stats
    }

    /** setStatus: entering Connected stamps the connection and counts it;
      * entering Disconnected stamps and counts the disconnection. */
    method SetStatus(newStatus: AdapterStatus, now: int)
      requires Valid()
      modifies this
      ensures Valid()
      ensures status == newStatus && lastError == old(lastError)
      ensures newStatus == Connected ==> (startTime == Some(now)
        && stats == old(stats).(lastConnectTime := now, connectCount := AddInt64(old(stats).connectCount, 1)))
      ensures newStatus == Disconnected ==> (startTime == old(startTime)
        && stats == old(stats).(lastDisconnectTime := now, disconnectCount := AddInt64(old(stats).disconnectCount, 1)))
      ensures newStatus != Connected && newStatus != Disconnected ==> startTime == old(startTime) && stats == old(stats)
    {
      status := newStatus;
      if newStatus == Connected {
        startTime := Some(now);
        stats := stats.(lastConnectTime := now, connectCount := AddInt64(stats.connectCount, 1));
      } else if newStatus == Disconnected {
        stats := stats.(lastDisconnectTime := now, disconnectCount := AddInt64(stats.disconnectCount, 1));
      }
    }

    /** setError: the error is kept, and a real one is counted. */
    method SetError(err: Option<string>)
      requires Valid()
      modifies this
      ensures Valid()
      ensures lastError == err && status == old(status) && startTime == old(startTime)
      ensures err.Some? ==> stats == old(stats).(errors := AddInt64(old(stats).errors, 1))
      ensures err.None? ==> stats == old(stats)
    {
      lastError := err;
      if err.Some? {
        stats := stats.(errors := AddInt64(stats.errors, 1));
      }
    }

    /** recordSend: one more message and `bytes` more bytes sent. */
    method RecordSend(bytes: Int64)
      requires Valid()
      modifies this
      ensures Valid()
      ensures stats == old(stats).(messagesSent := AddInt64(old(stats).messagesSent, 1),
                                   bytesSent := AddInt64(old(stats).bytesSent, bytes))
      ensures status == old(status) && lastError == old(lastError) && startTime == old(startTime)
    {
      stats := stats.(messagesSent := AddInt64(stats.messagesSent, 1), bytesSent := AddInt64(stats.bytesSent, bytes));
    }

    /** recordReceive: one more message and `bytes` more bytes received. */
    method RecordReceive(bytes: Int64)
      requires Valid()
      modifies this
      ensures Valid()
      ensures stats == old(stats).(messagesReceived := AddInt64(old(stats).messagesReceived, 1),
                                   bytesReceived := AddInt64(old(stats).bytesReceived, bytes))
      ensures status == old(status) && lastError == old(lastError) && startTime == old(startTime)
    {
      stats := stats.(messagesReceived := AddInt64(stats.messagesReceived, 1),
                      bytesReceived := AddInt64(stats.bytesReceived, bytes));
    }

    /** updateResponseTime. */
    method UpdateResponseTime(duration: Int64)
      requires Valid()
      modifies this
      ensures Valid()
      ensures stats == WithResponseTime(old(stats), duration)
      ensures status == old(status) && lastError == old(lastError) && startTime == old(startTime)
    {
      stats := WithResponseTime(stats, duration);
    }
  }

  /** time.Since as a Duration: the difference, saturated to the int64 range
    * the way Time.Sub clamps an overflowing difference. */
  function Saturate(x: int): (r: Int64)
    ensures MinInt64 <= x <= MaxInt64 ==> r == x
    ensures x > MaxInt64 ==> r == MaxInt64
    ensures x < MinInt64 ==> r == MinInt64
    ensures x <= r <= 0 || 0 <= r <= x
  {
    if x > MaxInt64 then MaxInt64 else if x < MinInt64 then MinInt64 else x
  }

  /** A send below the counter's limit counts exactly one message and its bytes. */
  lemma SendCounts(s: AdapterStats, bytes: Int64)
    requires s.messagesSent < MaxInt64 && 0 <= bytes && s.bytesSent <= MaxInt64 - bytes
    ensures AddInt64(s.messagesSent, 1) == s.messagesSent + 1
    ensures AddInt64(s.bytesSent, bytes) == s.bytesSent + bytes
  {
  }
}
