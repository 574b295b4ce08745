// The plugin base type of internal/bridge/plugins/plugin.go: a lifecycle
// status, a capability list without repetitions and a configuration map.
// Configuration values are kept as strings; start and stop times are
// parameters.
module Plugins {
  import opened Wrappers
  import opened Seqs

  type Value = string

  datatype PluginStatus = Uninitialized | Initialized | Started | Stopped | Failed
  {
    /** The status as the Go string constant prints it. */
    function Name(): string
    {
      match this
      case Uninitialized => "uninitialized"
      case Initialized => "initialized"
      case Started => "started"
      case Stopped => "stopped"
      case Failed => "error"
    }
  }

  datatype Metadata = Metadata(name: string, version: string, description: string, author: string,
                               license: string, homepage: string, repository: string, tags: seq<string>,
                               dependencies: seq<string>, properties: map<string, string>)

  const EmptyMetadata := Metadata("", "", "", "", "", "", "", [], [], map[])

  /** Everything a base plugin holds. */
  datatype PluginState = PluginState(id: string, pluginType: string, metadata: Metadata, status: PluginStatus,
                                     capabilities: seq<string>, config: map<string, Value>,
                                     lastError: Option<string>, startTime: int, stopTime: int)

  function Fresh(id: string, pluginType: string, metadata: Metadata): (s: PluginState)
    ensures s.status == Uninitialized && s.capabilities == [] && s.config == map[] && s.lastError.None?
  {
    PluginState(id, pluginType, metadata, Uninitialized, [], map[], None, 0, 0)
  }

  /** Initialize: any status, the configuration replaced. */
  function AfterInitialize(s: PluginState, config: map<string, Value>): (r: PluginState)
    ensures r.status == Initialized && r.config == config
    ensures r.(status := s.status, config := s.config) == s
  {
    s.(status := Initialized, config := config)
  }

  /** Start: only from Initialized or Stopped. */
  function AfterStart(s: PluginState, now: int): (r: Result<PluginState, string>)
    ensures r.Ok? <==> s.status == Initialized || s.status == Stopped
    ensures r.Ok? ==> (r.value.status == Started && r.value.startTime == now
                       && r.value.(status := s.status, startTime := s.startTime) == s)
    ensures r.Err? ==> r.error == "cannot start plugin with status " + s.status.Name()
  {
    if s.status != Initialized && s.status != Stopped then Err("cannot start plugin with status " + s.status.Name())
    else Ok(s.(startTime := now, status := Started))
  }

  /** Stop: only from Started. */
  function AfterStop(s: PluginState, now: int): (r: Result<PluginState, string>)
    ensures r.Ok? <==> s.status == Started
    ensures r.Ok? ==> (r.value.status == Stopped && r.value.stopTime == now
                       && r.value.(status := s.status, stopTime := s.stopTime) == s)
    ensures r.Err? ==> r.error == "cannot stop plugin with status " + s.status.Name()
  {
    if s.status != Started then Err("cannot stop plugin with status " + s.status.Name())
    else Ok(s.(stopTime := now, status := Stopped))
  }

  /** Cleanup: only from Stopped; the configuration is emptied and the status stays. */
  function AfterCleanup(s: PluginState): (r: Result<PluginState, string>)
    ensures r.Ok? <==> s.status == Stopped
    ensures r.Ok? ==> r.value.config == map[] && r.value.status == Stopped && r.value.(config := s.config) == s
    ensures r.Err? ==> r.error == "cannot cleanup plugin with status " + s.status.Name()
  {
    if s.status != Stopped then Err("cannot cleanup plugin with status " + s.status.Name())
    else Ok(s.(config := map[]))
  }

  /** The capability list after adding `c`: appended unless already there. */
  function AddCap(caps: seq<string>, c: string): (r: seq<string>)
    ensures c in r && (forall x :: x in r <==> x in caps || x == c)
    ensures |caps| <= |r| <= |caps| + 1 && r[..|caps|] == caps
    ensures c in caps ==> r == caps
    ensures Distinct(caps) ==> Distinct(r)
  {
    if c in caps then caps else caps + [c]
  }

  function AddCaps(caps: seq<string>, cs: seq<string>): (r: seq<string>)
  {
    if cs == [] then caps else AddCap(AddCaps(caps, cs[..|cs| - 1]), cs[|cs| - 1])
  }

  /** Adding a list of capabilities gives the union, still without repetitions,
    * and adding it a second time changes nothing. */
  lemma {:induction false} AddCapsUnion(caps: seq<string>, cs: seq<string>)
    ensures forall x :: x in AddCaps(caps, cs) <==> x in caps || x in cs
    ensures Distinct(caps) ==> Distinct(AddCaps(caps, cs))
    ensures AddCaps(AddCaps(caps, cs), cs) == AddCaps(caps, cs)
  {
    if cs != [] {
      var cs' := cs[..|cs| - 1];
      AddCapsUnion(caps, cs');
      AddCapsAbsorbs(AddCaps(caps, cs), cs);
    }
  }

  /** Adding capabilities that are all present already changes nothing. */
  lemma {:induction false} AddCapsAbsorbs(caps: seq<string>, cs: seq<string>)
    requires forall x :: x in cs ==> x in caps
    ensures AddCaps(caps, cs) == caps
  {
    if cs != [] {
      AddCapsAbsorbs(caps, cs[..|cs| - 1]);
    }
  }

  /** The options NewPlugin applies in order. */
  datatype PluginOption = WithCapabilities(caps: seq<string>) | WithMetadata(md: Metadata) | WithConfig(cfg: map<string, Value>)

  function ApplyOption(s: PluginState, o: PluginOption): (r: PluginState)
    ensures r.status == s.status && r.id == s.id && r.pluginType == s.pluginType
  {
    match o
    case WithCapabilities(cs) => s.(capabilities := AddCaps(s.capabilities, cs))
    case WithMetadata(md) => s.(metadata := md)
    case WithConfig(cfg) => s.(config := s.config + cfg)
  }

  function ApplyOptions(s: PluginState, os: seq<PluginOption>): (r: PluginState)
  {
    if os == [] then s else ApplyOption(ApplyOptions(s, os[..|os| - 1]), os[|os| - 1])
  }

  /** Options never change a plugin's identity or status, and keep its
    * capability list free of repetitions. */
  lemma {:induction false} OptionsKeepIdentity(s: PluginState, os: seq<PluginOption>)
    ensures var r := ApplyOptions(s, os);
      r.status == s.status && r.id == s.id && r.pluginType == s.pluginType
      && (Distinct(s.capabilities) ==> Distinct(r.capabilities))
  {
    if os != [] {
      OptionsKeepIdentity(s, os[..|os| - 1]);
      var s' := ApplyOptions(s, os[..|os| - 1]);
      if os[|os| - 1].WithCapabilities? {
        AddCapsUnion(s'.capabilities, os[|os| - 1].caps);
      }
    }
  }

  /** The lifecycle the plugin tests walk through. */
  lemma Lifecycle(s: PluginState, config: map<string, Value>, t0: int, t1: int)
    ensures var i := AfterInitialize(s, config);
      && i.status == Initialized
      && AfterStart(i, t0).Ok? && AfterStart(i, t0).value.status == Started
      && AfterStop(AfterStart(i, t0).value, t1).Ok? && AfterStop(AfterStart(i, t0).value, t1).value.status == Stopped
      && AfterCleanup(AfterStop(AfterStart(i, t0).value, t1).value).Ok?
      && AfterStart(AfterCleanup(AfterStop(AfterStart(i, t0).value, t1).value).value, t0).Ok?
  {
  }

  class BasePlugin {
    var id: string
    var pluginType: string
    var metadata: Metadata
    var status: PluginStatus
    var capabilities: seq<string>
    var config: map<string, Value>
    var lastError: Option<string>
    var startTime: int
    var stopTime: int

    function State(): PluginState
      reads this
    {
      PluginState(id, pluginType, metadata, status, capabilities, config, lastError, startTime, stopTime)
    }

    ghost predicate Valid()
      reads this
    {
      Distinct(capabilities)
    }

    /** NewBasePlugin. */
    constructor(id: string, pluginType: string, metadata: Metadata)
      ensures State() == Fresh(id, pluginType, metadata) && Valid()
    {
      this.id := id;
      this.pluginType := pluginType;
      this.metadata := metadata;
      status := Uninitialized;
      capabilities := [];
      config := map[];
      lastError := None;
      startTime := 0;
      stopTime := 0;
    }

    /** NewPlugin: a fresh plugin with empty metadata and the options applied in order. */
    constructor FromOptions(id: string, pluginType: string, options: seq<PluginOption>)
      ensures State() == ApplyOptions(Fresh(id, pluginType, EmptyMetadata), options) && Valid()
    {
      this.id := id;
      this.pluginType := pluginType;
      metadata := EmptyMetadata;
      status := Uninitialized;
      capabilities := [];
      config := map[];
      lastError := None;
      startTime := 0;
      stopTime := 0;
      new;
      var i := 0;
      while i < |options|
        invariant 0 <= i <= |options|
        invariant State() == ApplyOptions(Fresh(id, pluginType, EmptyMetadata), options[..i])
        invariant Valid()
      {
        assert options[..i + 1][..i] == options[..i];
        match options[i] {
          case WithCapabilities(cs) => AddCapabilities(cs);
          case WithMetadata(md) => metadata := md;
          case WithConfig(cfg) => Configure(cfg);
        }
        i := i + 1;
      }
      assert options[..i] == options;
    }

    method Initialize(config: map<string, Value>)
      modifies this
      ensures State() == AfterInitialize(old(State()), config)
      ensures old(Valid()) ==> Valid()
    {
      this.config := config;
      status := Initialized;
    }

    method Start(now: int) returns (err: Option<string>)
      modifies this
      ensures var r := AfterStart(old(State()), now);
        if r.Ok? then err.None? && State() == r.value else err == Some(r.error) && State() == old(State())
      ensures old(Valid()) ==> Valid()
    {
      if status != Initialized && status != Stopped {
        return Some("cannot start plugin with status " + status.Name());
      }
      startTime := now;
      status := Started;
      err := None;
    }

    method Stop(now: int) returns (err: Option<string>)
      modifies this
      ensures var r := AfterStop(old(State()), now);
        if r.Ok? then err.None? && State() == r.value else err == Some(r.error) && State() == old(State())
      ensures old(Valid()) ==> Valid()
    {
      if status != Started {
        return Some("cannot stop plugin with status " + status.Name());
      }
      stopTime := now;
      status := Stopped;
      err := None;
    }

    method Cleanup() returns (err: Option<string>)
      modifies this
      ensures var r := AfterCleanup(old(State()));
        if r.Ok? then err.None? && State() == r.value else err == Some(r.error) && State() == old(State())
      ensures old(Valid()) ==> Valid()
    {
      if status != Stopped {
        return Some("cannot cleanup plugin with status " + status.Name());
      }
      config := map[];
      err := None;
    }

    /** SupportsCapability: whether the list holds the capability. */
    method SupportsCapability(capability: string) returns (b: bool)
      ensures b <==> capability in capabilities
    {
      var i := 0;
      while i < |capabilities|
        invariant 0 <= i <= |capabilities|
        invariant capability !in capabilities[..i]
      {
        if capabilities[i] == capability {
          return true;
        }
        assert capabilities[..i + 1] == capabilities[..i] + [capabilities[i]];
        i := i + 1;
      }
      assert capabilities[..i] == capabilities;
      return false;
    }

    /** AddCapability: appended unless already listed. */
    method AddCapability(capability: string)
      modifies this
      ensures State() == old(State()).(capabilities := AddCap(old(capabilities), capability))
      ensures old(Valid()) ==> Valid()
    {
      var has := SupportsCapability(capability);
      if has {
        return;
      }
      capabilities := capabilities + [capability];
    }

    /** WithCapabilities: each capability added in turn. */
    method AddCapabilities(cs: seq<string>)
      modifies this
      ensures State() == old(State()).(capabilities := AddCaps(old(capabilities), cs))
      ensures old(Valid()) ==> Valid()
    {
      var j := 0;
      while j < |cs|
        invariant 0 <= j <= |cs|
        invariant State() == old(State()).(capabilities := AddCaps(old(capabilities), cs[..j]))
        invariant old(Valid()) ==> Valid()
      {
        assert cs[..j + 1][..j] == cs[..j];
        AddCapability(cs[j]);
        j := j + 1;
      }
      assert cs[..j] == cs;
    }

    /** Configure: merge the given keys into the configuration. */
    method Configure(cfg: map<string, Value>)
      modifies this
      ensures State() == old(State()).(config := old(config) + cfg)
      ensures old(Valid()) ==> Valid()
    {
      var left := cfg.Keys;
      while left != {}
        invariant left <= cfg.Keys
        invariant config == old(config) + map k | k in cfg.Keys - left :: cfg[k]
        invariant State() == old(State()).(config := config)
        decreases |left|
      {
        var k :| k in left;
        config := config[k := cfg[k]];
        left := left - {k};
      }
      assert (map k | k in cfg.Keys - left :: cfg[k]) == cfg;
    }

    /** GetConfig: a copy of the configuration. */
    method GetConfig() returns (copy: map<string, Value>)
      ensures copy == config
    {
      copy := map[];
      var left := config.Keys;
      while left != {}
        invariant left <= config.Keys
        invariant copy == map k | k in config.Keys - left :: config[k]
        decreases |left|
      {
        var k :| k in left;
        copy := copy[k := config[k]];
        left := left - {k};
      }
      assert config.Keys - left == config.Keys;
    }

    /** setError: record the error; a present error also moves the status to Error. */
    method SetError(err: Option<string>)
      modifies this
      ensures lastError == err && status == (if err.Some? then Failed else old(status))
      ensures State() == old(State()).(lastError := lastError, status := status)
      ensures old(Valid()) ==> Valid()
    {
      lastError := err;
      if err.Some? {
        status := Failed;
      }
    }
  }
}
