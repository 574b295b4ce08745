// The bridge manager of internal/bridge/manager.go: registered protocols
// and adapters, the bridges created from them, and a health record per
// bridge that pings and bridge events move between states. Bridge
// construction, pings, clocks and uuids are parameters.
module BridgeManager {
  import opened Wrappers

  const Second: int := 1_000_000_000

  datatype ManagerConfig = ManagerConfig(defaultTimeout: int, defaultRetryCount: int, defaultRetryDelay: int,
                                         healthCheckInterval: int, eventBufferSize: int, metricsEnabled: bool,
                                         defaultProtocol: string, defaultAdapter: string, enableDiscovery: bool,
                                         maxConcurrentBridges: int, shutdownTimeout: int, authenticationRequired: bool)

  /** DefaultManagerConfig: no default protocol or adapter. */
  function DefaultManagerConfig(): (c: ManagerConfig)
    ensures c.defaultProtocol == "" && c.defaultAdapter == "" && c.eventBufferSize == 100
  {
    ManagerConfig(30 * Second, 3, 5 * Second, 60 * Second, 100, true, "", "", true, 50, 30 * Second, false)
  }

  /** A registered protocol or adapter; `None` stands for a nil interface. */
  datatype Component = Component(name: string)

  datatype BridgeConfig = BridgeConfig(id: string, name: string, protocol: string, adapter: string, timeout: int)

  datatype Bridge = Bridge(config: BridgeConfig, protocol: string, adapter: string)

  /** Builds a bridge from its final configuration, protocol and adapter, or fails with a message. */
  type BridgeBuilder = (BridgeConfig, string, string) -> Option<string>

  datatype HealthStatus = Unknown | Healthy | Degraded | Unhealthy

  datatype HealthCheck = HealthCheck(lastCheck: int, status: HealthStatus, failureCount: nat, latency: int)

  const NewHealthCheck := HealthCheck(0, Unknown, 0, 0)

  /** The states the transitions below keep: three or more failures are
    * Unhealthy, any failure is Degraded or Unhealthy, and Unknown has none. */
  predicate Coherent(h: HealthCheck)
  {
    && (h.failureCount >= 3 ==> h.status == Unhealthy)
    && (h.failureCount > 0 ==> h.status == Degraded || h.status == Unhealthy)
    && (h.status == Unknown ==> h.failureCount == 0)
  }

  /** checkBridgeHealth's update for one ping at time `now`. */
  function AfterPing(h: HealthCheck, ok: bool, now: int, latency: int): (r: HealthCheck)
    ensures r.lastCheck == now && r.latency == latency
    ensures !ok ==> r.failureCount == h.failureCount + 1 && r.status == (if r.failureCount >= 3 then Unhealthy else Degraded)
    ensures ok ==> r.failureCount == 0
    ensures ok && h.failureCount > 0 && h.status == Unhealthy ==> r.status == Degraded
    ensures ok && !(h.failureCount > 0 && h.status == Unhealthy) ==> r.status == Healthy
    ensures Coherent(h) ==> Coherent(r)
  {
    var h' := h.(lastCheck := now, latency := latency);
    if !ok then
      var n := h.failureCount + 1;
      h'.(failureCount := n, status := if n >= 3 then Unhealthy else if n >= 1 then Degraded else h.status)
    else if h.failureCount > 0 then
      h'.(failureCount := 0, status := if h.status == Unhealthy then Degraded else Healthy)
    else
      h'.(status := Healthy)
  }

  datatype EventType = Connected | Disconnected | ErrorEvent | OtherEvent(name: string)

  datatype BridgeEvent = BridgeEvent(bridgeID: string, eventType: EventType, payload: string)

  /** handleEvent's update of the health record the event names. */
  function AfterEvent(h: HealthCheck, t: EventType): (r: HealthCheck)
    ensures t.Connected? ==> r == h.(status := Healthy, failureCount := 0)
    ensures t.Disconnected? ==> r == h.(status := Unhealthy, failureCount := h.failureCount + 1)
    ensures t.ErrorEvent? ==>
      (r.failureCount == h.failureCount + 1 && r.status == (if r.failureCount >= 3 then Unhealthy else Degraded) && r.lastCheck == h.lastCheck)
    ensures t.OtherEvent? ==> r == h
    ensures Coherent(h) ==> Coherent(r)
  {
    match t
    case Connected => h.(status := Healthy, failureCount := 0)
    case Disconnected => h.(status := Unhealthy, failureCount := h.failureCount + 1)
    case ErrorEvent =>
      var n := h.failureCount + 1;
      h.(failureCount := n, status := if n >= 3 then Unhealthy else Degraded)
    case OtherEvent(_) => h
  }

  /** The health record after a run of pings with the given outcomes. */
  function Pings(h: HealthCheck, oks: seq<bool>, now: int, latency: int): HealthCheck
  {
    if oks == [] then h else AfterPing(Pings(h, oks[..|oks| - 1], now, latency), oks[|oks| - 1], now, latency)
  }

  /** Three failed pings in a row make any bridge Unhealthy. */
  lemma ThreeFailuresUnhealthy(h: HealthCheck, now: int, latency: int)
    ensures Pings(h, [false, false, false], now, latency).status == Unhealthy
    ensures Pings(h, [false, false, false], now, latency).failureCount == h.failureCount + 3
  {
    assert [false, false, false][..2] == [false, false];
    assert [false, false][..1] == [false];
    assert [false][..0] == [];
    var h1 := AfterPing(h, false, now, latency);
    assert Pings(h, [false], now, latency) == h1;
    var h2 := AfterPing(h1, false, now, latency);
    assert Pings(h, [false, false], now, latency) == h2;
    assert Pings(h, [false, false, false], now, latency) == AfterPing(h2, false, now, latency);
  }

  /** An unhealthy bridge that answers again stays Degraded for one more
    * check, and is Healthy after the next successful one. */
  lemma RecoveryTakesTwoChecks(h: HealthCheck, now: int, latency: int)
    requires h.status == Unhealthy && h.failureCount > 0
    ensures Pings(h, [true], now, latency).status == Degraded
    ensures Pings(h, [true, true], now, latency).status == Healthy
  {
    assert [true][..0] == [];
    assert [true, true][..1] == [true];
  }

  /** A run of pings keeps a coherent record coherent. */
  lemma {:induction false} PingsCoherent(h: HealthCheck, oks: seq<bool>, now: int, latency: int)
    requires Coherent(h)
    ensures Coherent(Pings(h, oks, now, latency))
  {
    if oks != [] {
      PingsCoherent(h, oks[..|oks| - 1], now, latency);
    }
  }

  /** The protocol and adapter a bridge uses: its own, else the manager's defaults. */
  function Resolve(c: BridgeConfig, m: ManagerConfig): (r: Result<(string, string), string>)
    ensures r.Ok? ==> r.value.0 != "" && r.value.1 != ""
    ensures r.Ok? ==> r.value.0 == (if c.protocol != "" then c.protocol else m.defaultProtocol)
    ensures r.Ok? ==> r.value.1 == (if c.adapter != "" then c.adapter else m.defaultAdapter)
    ensures r.Err? <==> (c.protocol == "" && m.defaultProtocol == "") || (c.adapter == "" && m.defaultAdapter == "")
  {
    var p := if c.protocol != "" then c.protocol else m.defaultProtocol;
    if p == "" then Err("no protocol specified and no default protocol configured")
    else
      var a := if c.adapter != "" then c.adapter else m.defaultAdapter;
      if a == "" then Err("no adapter specified and no default adapter configured")
      else Ok((p, a))
  }

  class Manager {
    var config: ManagerConfig
    var bufferSize: int
    var protocols: set<string>
    var adapters: set<string>
    var bridges: map<string, Bridge>
    var healthChecks: map<string, HealthCheck>

    /** Every bridge has a health record, and no record outlives its bridge. */
    ghost predicate Valid()
      reads this
    {
      && bridges.Keys == healthChecks.Keys
      && (forall id :: id in healthChecks ==> Coherent(healthChecks[id]))
    }

    /** NewManager: the default configuration for a nil one, and an event buffer of 100 for a size that is not positive. */
    constructor(c: Option<ManagerConfig>)
      ensures config == (if c.None? then DefaultManagerConfig() else c.value)
      ensures bufferSize == (if config.eventBufferSize <= 0 then 100 else config.eventBufferSize)
      ensures protocols == {} && adapters == {} && bridges == map[] && healthChecks == map[]
      ensures Valid()
    {
      var cfg := if c.None? then DefaultManagerConfig() else c.value;
      config := cfg;
      bufferSize := if cfg.eventBufferSize <= 0 then 100 else cfg.eventBufferSize;
      protocols := {};
      adapters := {};
      bridges := map[];
      healthChecks := map[];
    }

    method RegisterProtocol(protocol: Option<Component>) returns (err: Option<string>)
      modifies this
      ensures protocol.None? ==> err == Some("protocol cannot be nil")
      ensures protocol.Some? && protocol.value.name == "" ==> err == Some("protocol must have a name")
      ensures protocol.Some? && protocol.value.name != "" && protocol.value.name in old(protocols) ==>
        err == Some("protocol '" + protocol.value.name + "' is already registered")
      ensures err.None? <==> protocol.Some? && protocol.value.name != "" && protocol.value.name !in old(protocols)
      ensures protocols == if err.None? then old(protocols) + {protocol.value.name} else old(protocols)
      ensures adapters == old(adapters) && bridges == old(bridges) && healthChecks == old(healthChecks) && config == old(config)
    {
      if protocol.None? {
        return Some("protocol cannot be nil");
      }
      var name := protocol.value.name;
      if name == "" {
        return Some("protocol must have a name");
      }
      if name in protocols {
        return Some("protocol '" + name + "' is already registered");
      }
      protocols := protocols + {name};
      err := None;
    }

    method RegisterAdapter(adapter: Option<Component>) returns (err: Option<string>)
      modifies this
      ensures adapter.None? ==> err == Some("adapter cannot be nil")
      ensures adapter.Some? && adapter.value.name == "" ==> err == Some("adapter must have a name")
      ensures adapter.Some? && adapter.value.name != "" && adapter.value.name in old(adapters) ==>
        err == Some("adapter '" + adapter.value.name + "' is already registered")
      ensures err.None? <==> adapter.Some? && adapter.value.name != "" && adapter.value.name !in old(adapters)
      ensures adapters == if err.None? then old(adapters) + {adapter.value.name} else old(adapters)
      ensures protocols == old(protocols) && bridges == old(bridges) && healthChecks == old(healthChecks) && config == old(config)
    {
      if adapter.None? {
        return Some("adapter cannot be nil");
      }
      var name := adapter.value.name;
      if name == "" {
        return Some("adapter must have a name");
      }
      if name in adapters {
        return Some("adapter '" + name + "' is already registered");
      }
      adapters := adapters + {name};
      err := None;
    }

    /** CreateBridge: validates the configuration, resolves the protocol and
      * adapter, gives the bridge an id and a timeout, and registers it with a
      * health record in the Unknown state. */
    method CreateBridge(bc: Option<BridgeConfig>, freshID: string, build: BridgeBuilder) returns (r: Result<Bridge, string>)
      modifies this
      ensures bc.None? ==> r == Err("bridge config cannot be nil")
      ensures bc.Some? && bc.value.name == "" ==> r == Err("bridge name cannot be empty")
      ensures bc.Some? && bc.value.name != "" && Resolve(bc.value, config).Err? ==> r == Err(Resolve(bc.value, config).error)
      ensures r.Ok? ==>
        && bc.Some? && bc.value.name != "" && Resolve(bc.value, config).Ok?
        && var (p, a) := Resolve(bc.value, config).value;
           var id := if bc.value.id == "" then freshID else bc.value.id;
           && p in protocols && a in adapters && id !in old(bridges)
           && r.value.protocol == p && r.value.adapter == a
           && r.value.config == bc.value.(id := id, timeout := if bc.value.timeout <= 0 then config.defaultTimeout else bc.value.timeout)
           && build(r.value.config, p, a).None?
           && bridges == old(bridges)[id := r.value] && healthChecks == old(healthChecks)[id := NewHealthCheck]
      ensures r.Err? ==> bridges == old(bridges) && healthChecks == old(healthChecks)
      ensures bc.Some? && bc.value.name != "" && Resolve(bc.value, config).Ok? ==>
        var (p, a) := Resolve(bc.value, config).value;
        var id := if bc.value.id == "" then freshID else bc.value.id;
        var cfg := bc.value.(id := id, timeout := if bc.value.timeout <= 0 then config.defaultTimeout else bc.value.timeout);
        && (p !in protocols ==> r == Err("protocol '" + p + "' is not registered"))
        && (p in protocols && a !in adapters ==> r == Err("adapter '" + a + "' is not registered"))
        && (p in protocols && a in adapters && id in old(bridges) ==>
              r == Err("bridge with ID '" + id + "' already exists"))
        && (p in protocols && a in adapters && id !in old(bridges) && build(cfg, p, a).Some? ==>
              r == Err("failed to create bridge: " + build(cfg, p, a).value))
        && (p in protocols && a in adapters && id !in old(bridges) && build(cfg, p, a).None? ==>
              r == Ok(Bridge(cfg, p, a)))
      ensures protocols == old(protocols) && adapters == old(adapters) && config == old(config)
      ensures old(Valid()) ==> Valid()
    {
      if bc.None? {
        return Err("bridge config cannot be nil");
      }
      var c := bc.value;
      if c.name == "" {
        return Err("bridge name cannot be empty");
      }
      var resolved := Resolve(c, config);
      if resolved.Err? {
        return Err(resolved.error);
      }
      var (p, a) := resolved.value;
      if p !in protocols {
        return Err("protocol '" + p + "' is not registered");
      }
      if a !in adapters {
        return Err("adapter '" + a + "' is not registered");
      }
      if c.id == "" {
        c := c.(id := freshID);
      }
      if c.id in bridges {
        return Err("bridge with ID '" + c.id + "' already exists");
      }
      if c.timeout <= 0 {
        c := c.(timeout := config.defaultTimeout);
      }
      var failed := build(c, p, a);
      if failed.Some? {
        return Err("failed to create bridge: " + failed.value);
      }
      var b := Bridge(c, p, a);
      bridges := bridges[c.id := b];
      healthChecks := healthChecks[c.id := NewHealthCheck];
      r := Ok(b);
    }

    function GetBridge(id: string): (r: Result<Bridge, string>)
      reads this
      ensures r.Ok? <==> id in bridges
      ensures r.Ok? ==> r.value == bridges[id]
      ensures r.Err? ==> r.error == "bridge with ID '" + id + "' not found"
    {
      if id in bridges then Ok(bridges[id]) else Err("bridge with ID '" + id + "' not found")
    }

    /** ListBridges: every bridge once, in map order. */
    method ListBridges() returns (r: seq<Bridge>)
      ensures forall b :: b in r <==> b in bridges.Values
      ensures |r| == |bridges|
    {
      r := [];
      var left := bridges.Keys;
      while left != {}
        invariant left <= bridges.Keys
        invariant forall b :: b in r <==> exists id :: id in bridges.Keys - left && bridges[id] == b
        invariant |r| == |bridges.Keys - left|
        decreases |left|
      {
        var id :| id in left;
        assert bridges.Keys - (left - {id}) == (bridges.Keys - left) + {id};
        r := r + [bridges[id]];
        left := left - {id};
      }
      assert bridges.Keys - left == bridges.Keys;
    }

    /** DestroyBridge: an unknown id is an error; otherwise the bridge and its health record go. */
    method DestroyBridge(id: string) returns (err: Option<string>)
      modifies this
      ensures id !in old(bridges) ==> err == Some("bridge with ID '" + id + "' not found") && bridges == old(bridges) && healthChecks == old(healthChecks)
      ensures id in old(bridges) ==> err.None? && bridges == old(bridges) - {id} && healthChecks == old(healthChecks) - {id}
      ensures protocols == old(protocols) && adapters == old(adapters) && config == old(config)
      ensures old(Valid()) ==> Valid()
    {
      if id !in bridges {
        return Some("bridge with ID '" + id + "' not found");
      }
      bridges := bridges - {id};
      healthChecks := healthChecks - {id};
      err := None;
    }

    /** checkBridgeHealth: a bridge without a record, or a record without a bridge, is skipped. */
    method CheckBridgeHealth(id: string, ok: bool, now: int, latency: int)
      modifies this
      ensures healthChecks == if id in old(bridges) && id in old(healthChecks)
        then old(healthChecks)[id := AfterPing(old(healthChecks)[id], ok, now, latency)] else old(healthChecks)
      ensures bridges == old(bridges) && protocols == old(protocols) && adapters == old(adapters) && config == old(config)
      ensures old(Valid()) ==> Valid()
    {
      if id !in bridges || id !in healthChecks {
        return;
      }
      healthChecks := healthChecks[id := AfterPing(healthChecks[id], ok, now, latency)];
    }

    /** checkBridgesHealth: every bridge pinged once, with `ping` and `latency` giving each outcome. */
    method CheckBridgesHealth(ping: string -> bool, latency: string -> int, now: int)
      modifies this
      ensures healthChecks == map id | id in old(healthChecks) ::
        if id in bridges then AfterPing(old(healthChecks)[id], ping(id), now, latency(id)) else old(healthChecks)[id]
      ensures bridges == old(bridges) && protocols == old(protocols) && adapters == old(adapters) && config == old(config)
      ensures old(Valid()) ==> Valid()
    {
      var left := bridges.Keys;
      ghost var before := healthChecks;
      while left != {}
        invariant left <= bridges.Keys && before == old(healthChecks)
        invariant bridges == old(bridges) && protocols == old(protocols) && adapters == old(adapters) && config == old(config)
        invariant healthChecks.Keys == before.Keys
        invariant forall id :: id in before ==>
          (healthChecks[id] == if id in bridges && id !in left then AfterPing(before[id], ping(id), now, latency(id)) else before[id])
        decreases |left|
      {
        var id :| id in left;
        if id in healthChecks {
          healthChecks := healthChecks[id := AfterPing(healthChecks[id], ping(id), now, latency(id))];
        }
        left := left - {id};
      }
    }

    /** GetBridgeHealth: Unknown with an error for an id without a record. */
    function GetBridgeHealth(id: string): (r: (HealthStatus, Option<string>))
      reads this
      ensures id in healthChecks ==> r == (healthChecks[id].status, None)
      ensures id !in healthChecks ==> r == (Unknown, Some("bridge with ID '" + id + "' not found"))
    {
      if id in healthChecks then (healthChecks[id].status, None)
      else (Unknown, Some("bridge with ID '" + id + "' not found"))
    }

    /** handleEvent: the event updates the named bridge's record, if it has one. */
    method HandleEvent(e: BridgeEvent)
      modifies this
      ensures healthChecks == if e.bridgeID in old(healthChecks)
        then old(healthChecks)[e.bridgeID := AfterEvent(old(healthChecks)[e.bridgeID], e.eventType)] else old(healthChecks)
      ensures bridges == old(bridges) && protocols == old(protocols) && adapters == old(adapters) && config == old(config)
      ensures old(Valid()) ==> Valid()
    {
      if e.bridgeID in healthChecks {
        healthChecks := healthChecks[e.bridgeID := AfterEvent(healthChecks[e.bridgeID], e.eventType)];
      }
    }
  }
}
