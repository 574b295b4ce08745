// The bridge extension of service discovery in
// internal/core/discovery/service_extension.go: bridge services kept by
// id, the filter a query or a watcher states, and the routing of change
// events to the watchers' channels. The underlying registry's Register and
// Deregister are parameters (the error they return, if any), the clock is
// a parameter, and a watcher's channel is a bounded queue that a
// non-blocking send leaves alone when it is full.
module ServiceDiscovery {
  import opened Wrappers
  import opened Seqs

  const StatusUp := "UP"
  const StatusDown := "DOWN"

  datatype ServiceInstance = ServiceInstance(id: string, name: string, version: string, address: string,
                                             status: string, metadata: map<string, string>,
                                             tags: seq<string>, weight: int)

  datatype ServiceStats = ServiceStats(uptime: int, requestCount: int, errorCount: int, lastRequestTime: int,
                                       avgResponseTimeMs: real, activeConnections: int, cpuUsage: real,
                                       memoryUsage: int)

  datatype BridgeServiceInfo = BridgeServiceInfo(instance: ServiceInstance, protocols: seq<string>,
                                                 adapters: seq<string>, capabilities: seq<string>,
                                                 stats: ServiceStats)

  /** NewBridgeServiceInfo: the base instance with empty lists and zero stats. */
  function NewBridgeServiceInfo(base: ServiceInstance): (s: BridgeServiceInfo)
    ensures s.instance == base
    ensures s.protocols == [] && s.adapters == [] && s.capabilities == []
    ensures s.stats.uptime == 0 && s.stats.requestCount == 0 && s.stats.errorCount == 0
    ensures s.stats.lastRequestTime == 0 && s.stats.avgResponseTimeMs == 0.0
    ensures s.stats.activeConnections == 0 && s.stats.cpuUsage == 0.0 && s.stats.memoryUsage == 0
  {
    BridgeServiceInfo(base, [], [], [], ServiceStats(0, 0, 0, 0, 0.0, 0, 0.0, 0))
  }

  datatype ServiceFilter = ServiceFilter(protocols: seq<string>, capabilities: seq<string>, tags: seq<string>,
                                         metadata: map<string, string>, status: string)

  const EmptyFilter := ServiceFilter([], [], [], map[], "")

  datatype ServiceChangeEvent = ServiceChangeEvent(eventType: string, serviceID: string,
                                                   service: Option<BridgeServiceInfo>, timestamp: int)

  datatype HealthCheckConfig = HealthCheckConfig(interval: int, timeout: int, failureThreshold: int,
                                                 successThreshold: int)

  /** A watcher's channel: its buffer size and the events waiting in it. */
  datatype Mailbox = Mailbox(capacity: nat, queued: seq<ServiceChangeEvent>)

  /** The non-blocking send: the event is queued when there is room and dropped otherwise. */
  function Deliver(m: Mailbox, e: ServiceChangeEvent): (r: Mailbox)
    ensures r.capacity == m.capacity
    ensures |m.queued| < m.capacity ==> r.queued == m.queued + [e]
    ensures |m.queued| >= m.capacity ==> r == m
  {
    if |m.queued| < m.capacity then m.(queued := m.queued + [e]) else m
  }

  /** At least one wanted entry is among the ones the service has. */
  predicate SharesOne(wanted: seq<string>, have: seq<string>)
  {
    exists i :: 0 <= i < |wanted| && wanted[i] in have
  }

  /** Every wanted metadata pair is present with the same value. */
  predicate MetadataAgrees(wanted: map<string, string>, have: map<string, string>)
  {
    forall k :: k in wanted ==> k in have && have[k] == wanted[k]
  }

  /** What matchesFilter decides: each non-empty list must share an entry
    * with the service, every metadata pair must match, and a set status
    * must be the service's. */
  predicate Admits(f: ServiceFilter, s: BridgeServiceInfo)
  {
    && (|f.protocols| > 0 ==> SharesOne(f.protocols, s.protocols))
    && (|f.capabilities| > 0 ==> SharesOne(f.capabilities, s.capabilities))
    && (|f.tags| > 0 ==> SharesOne(f.tags, s.instance.tags))
    && MetadataAgrees(f.metadata, s.instance.metadata)
    && (f.status != "" ==> s.instance.status == f.status)
  }

  /** The two nested loops of one list check, with their breaks. */
  method SharesAny(wanted: seq<string>, have: seq<string>) returns (matches: bool)
    ensures matches <==> SharesOne(wanted, have)
  {
    matches := false;
    var i := 0;
    while i < |wanted|
      invariant 0 <= i <= |wanted|
      invariant forall j :: 0 <= j < i ==> wanted[j] !in have
    {
      matches := Has(have, wanted[i]);
      if matches {
        return;
      }
      i := i + 1;
    }
  }

  /** The metadata loop, which returns on the first pair that is missing or differs. */
  method MetadataMatches(wanted: map<string, string>, have: map<string, string>) returns (matches: bool)
    ensures matches <==> MetadataAgrees(wanted, have)
  {
    var left := wanted.Keys;
    while left != {}
      invariant left <= wanted.Keys
      invariant forall k :: k in wanted.Keys - left ==> k in have && have[k] == wanted[k]
      decreases |left|
    {
      var key :| key in left;
      if key !in have || have[key] != wanted[key] {
        return false;
      }
      left := left - {key};
    }
    return true;
  }

  /** matchesFilter. */
  method MatchesFilter(service: BridgeServiceInfo, filter: ServiceFilter) returns (matches: bool)
    ensures matches <==> Admits(filter, service)
  {
    if |filter.protocols| > 0 {
      matches := SharesAny(filter.protocols, service.protocols);
      if !matches {
        return;
      }
    }
    if |filter.capabilities| > 0 {
      matches := SharesAny(filter.capabilities, service.capabilities);
      if !matches {
        return;
      }
    }
    if |filter.tags| > 0 {
      matches := SharesAny(filter.tags, service.instance.tags);
      if !matches {
        return;
      }
    }
    if |filter.metadata| > 0 {
      matches := MetadataMatches(filter.metadata, service.instance.metadata);
      if !matches {
        return;
      }
    }
    if filter.status != "" && service.instance.status != filter.status {
      return false;
    }
    return true;
  }

  /** The ids of the services a filter admits. */
  ghost function AdmittedIds(services: map<string, BridgeServiceInfo>, filter: ServiceFilter): set<string>
  {
    set id | id in services && Admits(filter, services[id])
  }

  /** The `range` loop of FindServices over the services, in an arbitrary order. */
  method FilterServices(services: map<string, BridgeServiceInfo>, filter: ServiceFilter)
    returns (matches: seq<BridgeServiceInfo>)
    ensures forall s :: s in matches <==> exists id :: id in services && services[id] == s && Admits(filter, s)
    ensures |matches| == |AdmittedIds(services, filter)|
  {
    matches := [];
    var left := services.Keys;
    ghost var seen: set<string> := {};
    while left != {}
      invariant FoundSoFar(services, filter, left, seen, matches)
      decreases |left|
    {
      var id :| id in left;
      var service := services[id];
      var ok := MatchesFilter(service, filter);
      FoundStep(services, filter, left, seen, matches, id);
      if ok {
        matches := matches + [service];
        seen := seen + {id};
      }
      left := left - {id};
    }
    assert seen == AdmittedIds(services, filter);
  }

  /** The invariant of FilterServices' loop: `seen` are the admitted ids
    * already visited, and `matches` their services. */
  ghost predicate FoundSoFar(services: map<string, BridgeServiceInfo>, filter: ServiceFilter, left: set<string>,
                             seen: set<string>, matches: seq<BridgeServiceInfo>)
  {
    && left <= services.Keys
    && seen == (set id | id in services.Keys - left && Admits(filter, services[id]))
    && |matches| == |seen|
    && (forall s :: s in matches <==> exists id :: id in seen && services[id] == s)
  }

  lemma FoundStep(services: map<string, BridgeServiceInfo>, filter: ServiceFilter, left: set<string>,
                  seen: set<string>, matches: seq<BridgeServiceInfo>, id: string)
    requires FoundSoFar(services, filter, left, seen, matches) && id in left
    ensures Admits(filter, services[id]) ==>
      FoundSoFar(services, filter, left - {id}, seen + {id}, matches + [services[id]])
    ensures !Admits(filter, services[id]) ==> FoundSoFar(services, filter, left - {id}, seen, matches)
    ensures |left - {id}| < |left|
  {
    var visited := (set i | i in services.Keys - (left - {id}) && Admits(filter, services[i]));
    if Admits(filter, services[id]) {
      assert visited == seen + {id};
      assert id !in seen;
      forall s | s in matches + [services[id]] ensures exists i :: i in seen + {id} && services[i] == s {
        if s !in matches {
          assert services[id] == s;
        }
      }
    } else {
      assert visited == seen;
    }
  }

  /** The empty filter admits every service. */
  lemma EmptyFilterAdmitsAll(s: BridgeServiceInfo)
    ensures Admits(EmptyFilter, s)
  {
  }

  /** The filter made of a service's own protocols, capabilities, tags,
    * metadata and status admits that service. */
  lemma OwnFilterAdmits(s: BridgeServiceInfo)
    ensures Admits(ServiceFilter(s.protocols, s.capabilities, s.instance.tags, s.instance.metadata,
                                 s.instance.status), s)
  {
    if |s.protocols| > 0 {
      assert s.protocols[0] in s.protocols;
    }
    if |s.capabilities| > 0 {
      assert s.capabilities[0] in s.capabilities;
    }
    if |s.instance.tags| > 0 {
      assert s.instance.tags[0] in s.instance.tags;
    }
  }

  /** Adding a wanted metadata pair or a status can only narrow what a filter admits. */
  lemma NarrowerFilter(f: ServiceFilter, key: string, value: string, status: string, s: BridgeServiceInfo)
    requires key !in f.metadata
    requires f.status == "" || f.status == status
    requires Admits(f.(metadata := f.metadata[key := value], status := status), s)
    ensures Admits(f, s)
  {
    forall k | k in f.metadata
      ensures k in s.instance.metadata && s.instance.metadata[k] == f.metadata[k]
    {
      if k != key {
        assert k in f.metadata[key := value];
      }
    }
  }

  /** Whether a register or update event reaches the watcher with this
    * filter entry: only without a filter or with one that admits the
    * service; every other event reaches all watchers. */
  predicate Eligible(e: ServiceChangeEvent, filter: Option<ServiceFilter>)
    requires (e.eventType == "register" || e.eventType == "update") ==> e.service.Some?
  {
    if e.eventType == "register" || e.eventType == "update" then
      filter.None? || Admits(filter.value, e.service.value)
    else true
  }

  function FilterOf(filters: map<string, ServiceFilter>, id: string): Option<ServiceFilter>
  {
    if id in filters then Some(filters[id]) else None
  }

  /** The channels after one event: each gets it when it is eligible for
    * the channel's filter and the channel has room. */
  function Notified(channels: map<string, Mailbox>, filters: map<string, ServiceFilter>, event: ServiceChangeEvent)
    : map<string, Mailbox>
    requires (event.eventType == "register" || event.eventType == "update") ==> event.service.Some?
  {
    map id | id in channels ::
      if Eligible(event, FilterOf(filters, id)) then Deliver(channels[id], event) else channels[id]
  }

  /** The `range` loop of notifySubscribers over the channels, in an arbitrary order. */
  method Notify(channels: map<string, Mailbox>, filters: map<string, ServiceFilter>, event: ServiceChangeEvent)
    returns (after: map<string, Mailbox>)
    requires (event.eventType == "register" || event.eventType == "update") ==> event.service.Some?
    ensures after == Notified(channels, filters, event)
  {
    after := channels;
    var left := channels.Keys;
    while left != {}
      invariant left <= channels.Keys && after.Keys == channels.Keys
      invariant forall id :: id in after ==>
        after[id] == if id in left || !Eligible(event, FilterOf(filters, id)) then channels[id]
                     else Deliver(channels[id], event)
      decreases |left|
    {
      var id :| id in left;
      var send := true;
      if event.eventType == "register" || event.eventType == "update" {
        if id in filters {
          send := MatchesFilter(event.service.value, filters[id]);
        }
      }
      if send {
        after := after[id := Deliver(after[id], event)];
      }
      left := left - {id};
    }
  }

  class BridgeDiscovery {
    var bridgeServices: map<string, BridgeServiceInfo>
    var serviceFilters: map<string, ServiceFilter>
    var notificationCh: map<string, Mailbox>
    var healthCheckConfig: HealthCheckConfig

    /** Every bridge service is kept under its own id. */
    predicate Valid()
      reads this
    {
      forall id :: id in bridgeServices ==> bridgeServices[id].instance.id == id
    }

    /** NewBridgeDiscovery. */
    constructor(config: HealthCheckConfig)
      ensures Valid()
      ensures bridgeServices == map[] && serviceFilters == map[] && notificationCh == map[]
      ensures healthCheckConfig == config
    {
      bridgeServices := map[];
      serviceFilters := map[];
      notificationCh := map[];
      healthCheckConfig := config;
    }

    /** notifySubscribers: each watcher's channel gets the event when the
      * event is eligible for its filter and the channel has room. */
    method NotifySubscribers(event: ServiceChangeEvent)
      modifies this
      requires (event.eventType == "register" || event.eventType == "update") ==> event.service.Some?
      ensures notificationCh == map id | id in old(notificationCh) ::
        if Eligible(event, FilterOf(serviceFilters, id)) then Deliver(old(notificationCh)[id], event)
        else old(notificationCh)[id]
      ensures bridgeServices == old(bridgeServices) && serviceFilters == old(serviceFilters)
      ensures healthCheckConfig == old(healthCheckConfig)
    {
      notificationCh := Notify(notificationCh, serviceFilters, event);
    }

    /** RegisterBridgeService: a registry error is returned with nothing
      * changed; otherwise the service is stored under its id and a
      * "register" event is sent. */
    method RegisterBridgeService(service: BridgeServiceInfo, regErr: Option<string>, now: int)
      returns (err: Option<string>)
      modifies this
      requires Valid()
      ensures Valid()
      ensures err == regErr
      ensures regErr.Some? ==>
        bridgeServices == old(bridgeServices) && notificationCh == old(notificationCh)
      ensures regErr.None? ==> bridgeServices == old(bridgeServices)[service.instance.id := service]
      ensures regErr.None? ==>
        var e := ServiceChangeEvent("register", service.instance.id, Some(service), now);
        notificationCh == map id | id in old(notificationCh) ::
          if Eligible(e, FilterOf(serviceFilters, id)) then Deliver(old(notificationCh)[id], e)
          else old(notificationCh)[id]
      ensures serviceFilters == old(serviceFilters) && healthCheckConfig == old(healthCheckConfig)
    {
      if regErr.Some? {
        return regErr;
      }
      bridgeServices := bridgeServices[service.instance.id := service];
      NotifySubscribers(ServiceChangeEvent("register", service.instance.id, Some(service), now));
      err := None;
    }

    /** UnregisterBridgeService: a registry error is returned with nothing
      * changed; otherwise the id is removed and an "unregister" event goes
      * to every watcher with room. */
    method UnregisterBridgeService(id: string, deregErr: Option<string>, now: int)
      returns (err: Option<string>)
      modifies this
      requires Valid()
      ensures Valid()
      ensures err == deregErr
      ensures deregErr.Some? ==>
        bridgeServices == old(bridgeServices) && notificationCh == old(notificationCh)
      ensures deregErr.None? ==> bridgeServices == old(bridgeServices) - {id}
      ensures deregErr.None? ==>
        notificationCh == map w | w in old(notificationCh) ::
          Deliver(old(notificationCh)[w], ServiceChangeEvent("unregister", id, None, now))
      ensures serviceFilters == old(serviceFilters) && healthCheckConfig == old(healthCheckConfig)
    {
      if deregErr.Some? {
        return deregErr;
      }
      bridgeServices := bridgeServices - {id};
      NotifySubscribers(ServiceChangeEvent("unregister", id, None, now));
      err := None;
    }

    /** GetBridgeService. */
    function GetBridgeService(id: string): (r: Result<BridgeServiceInfo, string>)
      reads this
      ensures r.Ok? <==> id in bridgeServices
      ensures r.Ok? ==> r.value == bridgeServices[id]
      ensures r.Err? ==> r.error == NotFound(id)
    {
      if id in bridgeServices then Ok(bridgeServices[id]) else Err(NotFound(id))
    }

    /** UpdateBridgeServiceStats: an unknown id is an error; otherwise only
      * that service's stats change. */
    method UpdateBridgeServiceStats(id: string, stats: ServiceStats) returns (err: Option<string>)
      modifies this
      requires Valid()
      ensures Valid()
      ensures id !in old(bridgeServices) ==> err == Some(NotFound(id)) && bridgeServices == old(bridgeServices)
      ensures id in old(bridgeServices) ==>
        err.None? && bridgeServices == old(bridgeServices)[id := old(bridgeServices)[id].(stats := stats)]
      ensures serviceFilters == old(serviceFilters) && notificationCh == old(notificationCh)
      ensures healthCheckConfig == old(healthCheckConfig)
    {
      if id !in bridgeServices {
        return Some(NotFound(id));
      }
      bridgeServices := bridgeServices[id := bridgeServices[id].(stats := stats)];
      err := None;
    }

    /** The ids of the services a filter admits. */
    ghost function Admitted(filter: ServiceFilter): set<string>
      reads this
    {
      AdmittedIds(bridgeServices, filter)
    }

    /** FindServices: one entry per admitted service, and only those. */
    method FindServices(filter: ServiceFilter) returns (matches: seq<BridgeServiceInfo>)
      ensures forall s :: s in matches <==> exists id :: id in bridgeServices && bridgeServices[id] == s && Admits(filter, s)
      ensures |matches| == |Admitted(filter)|
    {
      matches := FilterServices(bridgeServices, filter);
    }

    /** RegisterServiceWatcher: the filter and the channel under `id`, replacing any earlier ones. */
    method RegisterServiceWatcher(id: string, filter: ServiceFilter, ch: Mailbox) returns (err: Option<string>)
      modifies this
      ensures err.None?
      ensures serviceFilters == old(serviceFilters)[id := filter] && notificationCh == old(notificationCh)[id := ch]
      ensures bridgeServices == old(bridgeServices) && healthCheckConfig == old(healthCheckConfig)
    {
      serviceFilters := serviceFilters[id := filter];
      notificationCh := notificationCh[id := ch];
      err := None;
    }

    /** UnregisterServiceWatcher: drops the filter and the channel; an unknown id is not an error. */
    method UnregisterServiceWatcher(id: string) returns (err: Option<string>)
      modifies this
      ensures err.None?
      ensures serviceFilters == old(serviceFilters) - {id} && notificationCh == old(notificationCh) - {id}
      ensures bridgeServices == old(bridgeServices) && healthCheckConfig == old(healthCheckConfig)
    {
      serviceFilters := serviceFilters - {id};
      notificationCh := notificationCh - {id};
      err := None;
    }
  }

  function NotFound(id: string): string
  {
    "bridge service '" + id + "' not found"
  }

  /** A "register" event for a service reaches a watcher with room exactly
    * when the watcher has no filter or its filter admits the service; an
    * "unregister" event reaches every watcher with room. */
  lemma RoutingMeaning(s: BridgeServiceInfo, filter: Option<ServiceFilter>, m: Mailbox, id: string, now: int)
    requires |m.queued| < m.capacity
    ensures var e := ServiceChangeEvent("register", s.instance.id, Some(s), now);
      ((if Eligible(e, filter) then Deliver(m, e) else m).queued == m.queued + [e]
       <==> filter.None? || Admits(filter.value, s))
    ensures var e := ServiceChangeEvent("unregister", id, None, now);
      Eligible(e, filter) && Deliver(m, e).queued == m.queued + [e]
  {
    var e := ServiceChangeEvent("register", s.instance.id, Some(s), now);
    assert |m.queued + [e]| != |m.queued|;
  }
}
