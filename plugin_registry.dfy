// The plugin registry of internal/bridge/plugins/registry.go: registered
// plugins, plugin factories and the dependency lists between plugins. The
// registry holds each plugin's state as a value and applies the base
// plugin's lifecycle to it; a factory is a function of the plugin id and
// configuration.
module PluginRegistry {
  import opened Wrappers
  import opened Seqs
  import opened Plugins

  type Factory = (string, map<string, Value>) -> Result<PluginState, string>

  const ErrPluginNotFound := "plugin not found"

  /** Some dependency list names `id`. */
  ghost predicate DependedOn(deps: map<string, seq<string>>, id: string)
  {
    exists pid :: pid in deps && id in deps[pid]
  }

  /** A started plugin's dependency list names `id`. */
  ghost predicate StartedDependent(deps: map<string, seq<string>>, plugins: map<string, PluginState>, id: string, pid: string)
  {
    pid in deps && pid in plugins && plugins[pid].status == Started && id in deps[pid]
  }

  function DepsOf(deps: map<string, seq<string>>, pid: string): seq<string>
  {
    if pid in deps then deps[pid] else []
  }

  /** The reason one dependency keeps `pid` from starting, if any. */
  function DepProblem(plugins: map<string, PluginState>, pid: string): string -> Option<string>
  {
    (d: string) =>
      if d !in plugins then Some("dependency '" + d + "' for plugin '" + pid + "' not found")
      else if plugins[d].status != Started then Some("dependency '" + d + "' for plugin '" + pid + "' is not started")
      else None
  }

  /** checkDependencies reports nothing exactly when every dependency is
    * registered and started. */
  lemma DependenciesReady(deps: map<string, seq<string>>, plugins: map<string, PluginState>, pid: string)
    ensures FirstSome(DepsOf(deps, pid), DepProblem(plugins, pid)).None? <==>
      forall d :: d in DepsOf(deps, pid) ==> d in plugins && plugins[d].status == Started
  {
    var ds := DepsOf(deps, pid);
    FirstSomeSpec(ds, DepProblem(plugins, pid));
    if FirstSome(ds, DepProblem(plugins, pid)).None? {
      forall d | d in ds ensures d in plugins && plugins[d].status == Started {
        var i :| 0 <= i < |ds| && ds[i] == d;
        assert DepProblem(plugins, pid)(ds[i]).None?;
      }
    }
  }

  /** The list without position `i`: the last entry moves into its place. */
  function SwapRemove(s: seq<string>, i: nat): (r: seq<string>)
    requires i < |s|
    ensures |r| == |s| - 1 && multiset(r) == multiset(s) - multiset{s[i]}
  {
    var t := s[i := s[|s| - 1]];
    assert t == t[..|s| - 1] + [s[|s| - 1]];
    assert multiset(t) == multiset(s) - multiset{s[i]} + multiset{s[|s| - 1]} by {
      assert s == s[..i] + [s[i]] + s[i + 1..];
      assert t == s[..i] + [s[|s| - 1]] + s[i + 1..];
    }
    t[..|s| - 1]
  }

  /** Swap-removing one entry of a list without repetitions removes that
    * value and nothing else, and keeps the list free of repetitions. */
  lemma SwapRemoveDistinct(s: seq<string>, i: nat)
    requires i < |s| && Distinct(s)
    ensures Distinct(SwapRemove(s, i))
    ensures forall x :: x in SwapRemove(s, i) <==> x in s && x != s[i]
  {
    var r := SwapRemove(s, i);
    var n := |s|;
    assert forall k :: 0 <= k < |r| ==> r[k] == if k == i then s[n - 1] else s[k];
    forall x | x in s && x != s[i] ensures x in r {
      var m :| 0 <= m < n && s[m] == x;
      if m < n - 1 {
        assert r[m] == x;
      } else {
        assert r[i] == x;
      }
    }
  }

  /** The first position of `x` in `s`. */
  method Find(s: seq<string>, x: string) returns (k: Option<nat>)
    ensures k.None? <==> x !in s
    ensures k.Some? ==> k.value < |s| && s[k.value] == x && x !in s[..k.value]
  {
    var i := 0;
    while i < |s|
      invariant 0 <= i <= |s|
      invariant x !in s[..i]
    {
      if s[i] == x {
        return Some(i);
      }
      assert s[..i + 1] == s[..i] + [s[i]];
      i := i + 1;
    }
    assert s[..i] == s;
    return None;
  }

  /** Removing one entry of one dependency list keeps the lists repetition-free, naming registered plugins, and owned by registered plugins. */
  lemma RemovalKeepsInvariants(plugins: map<string, PluginState>, deps: map<string, seq<string>>, pid: string, i: nat)
    requires pid in deps && i < |deps[pid]|
    ensures var deps' := deps[pid := SwapRemove(deps[pid], i)];
      && ((forall p :: p in deps ==> Distinct(deps[p])) ==> forall p :: p in deps' ==> Distinct(deps'[p]))
      && ((forall p :: p in deps ==> Distinct(deps[p])) && (forall p, d :: p in deps && d in deps[p] ==> d in plugins) ==>
          forall p, d :: p in deps' && d in deps'[p] ==> d in plugins)
      && ((forall p :: p in deps ==> p in plugins) ==> forall p :: p in deps' ==> p in plugins)
  {
    if Distinct(deps[pid]) {
      SwapRemoveDistinct(deps[pid], i);
    }
  }

  class Registry {
    var plugins: map<string, PluginState>
    var factories: map<string, Factory>
    var dependencies: map<string, seq<string>>

    /** Dependency lists have no repetitions and name registered plugins only. */
    ghost predicate Valid()
      reads this
    {
      && (forall pid :: pid in dependencies ==> Distinct(dependencies[pid]))
      && (forall pid, d :: pid in dependencies && d in dependencies[pid] ==> d in plugins)
    }

    /** Every dependency list belongs to a registered plugin. */
    ghost predicate Tidy()
      reads this
    {
      forall pid :: pid in dependencies ==> pid in plugins
    }

    constructor()
      ensures plugins == map[] && factories == map[] && dependencies == map[]
      ensures Valid() && Tidy()
    {
      plugins := map[];
      factories := map[];
      dependencies := map[];
    }

    method RegisterPlugin(plugin: PluginState) returns (err: Option<string>)
      modifies this
      ensures plugin.id in old(plugins) ==> err == Some("plugin '" + plugin.id + "' already registered") && plugins == old(plugins)
      ensures plugin.id !in old(plugins) ==> err.None? && plugins == old(plugins)[plugin.id := plugin]
      ensures factories == old(factories) && dependencies == old(dependencies)
      ensures old(Valid()) ==> Valid()
      ensures old(Tidy()) ==> Tidy()
    {
      var id := plugin.id;
      if id in plugins {
        return Some("plugin '" + id + "' already registered");
      }
      plugins := plugins[id := plugin];
      err := None;
    }

    /** Some plugin whose dependency list names `id` (the map-order loop of UnregisterPlugin). */
    method FindDependent(id: string) returns (pid: Option<string>)
      ensures pid.None? <==> !DependedOn(dependencies, id)
      ensures pid.Some? ==> pid.value in dependencies && id in dependencies[pid.value]
    {
      var left := dependencies.Keys;
      while left != {}
        invariant left <= dependencies.Keys
        invariant forall p :: p in dependencies.Keys - left ==> id !in dependencies[p]
        decreases |left|
      {
        var p :| p in left;
        var has := Has(dependencies[p], id);
        if has {
          return Some(p);
        }
        left := left - {p};
      }
      return None;
    }

    /** UnregisterPlugin as written: the plugin's own dependency list stays behind. */
    method UnregisterPlugin(id: string) returns (err: Option<string>)
      modifies this
      ensures id !in old(plugins) ==> err == Some(ErrPluginNotFound) && plugins == old(plugins)
      ensures id in old(plugins) && DependedOn(old(dependencies), id) ==>
        err.Some? && plugins == old(plugins)
      ensures id in old(plugins) && !DependedOn(old(dependencies), id) ==>
        err.None? && plugins == old(plugins) - {id}
      ensures factories == old(factories) && dependencies == old(dependencies)
      ensures old(Valid()) ==> Valid()
    {
      if id !in plugins {
        return Some(ErrPluginNotFound);
      }
      var pid := FindDependent(id);
      if pid.Some? {
        return Some("cannot unregister plugin '" + id + "': plugin '" + pid.value + "' depends on it");
      }
      plugins := plugins - {id};
      err := None;
    }

    /** UnregisterPlugin with the plugin's own dependency list removed too. */
    method UnregisterPluginCorrected(id: string) returns (err: Option<string>)
      modifies this
      ensures id !in old(plugins) ==> err == Some(ErrPluginNotFound) && plugins == old(plugins) && dependencies == old(dependencies)
      ensures id in old(plugins) && DependedOn(old(dependencies), id) ==>
        err.Some? && plugins == old(plugins) && dependencies == old(dependencies)
      ensures id in old(plugins) && !DependedOn(old(dependencies), id) ==>
        err.None? && plugins == old(plugins) - {id} && dependencies == old(dependencies) - {id}
      ensures factories == old(factories)
      ensures old(Valid()) ==> Valid()
      ensures old(Tidy()) ==> Tidy()
    {
      if id !in plugins {
        return Some(ErrPluginNotFound);
      }
      var pid := FindDependent(id);
      if pid.Some? {
        return Some("cannot unregister plugin '" + id + "': plugin '" + pid.value + "' depends on it");
      }
      plugins := plugins - {id};
      dependencies := dependencies - {id};
      err := None;
    }

    function GetPlugin(id: string): (r: Result<PluginState, string>)
      reads this
      ensures r.Ok? <==> id in plugins
      ensures r.Ok? ==> r.value == plugins[id]
      ensures r.Err? ==> r.error == ErrPluginNotFound
    {
      if id in plugins then Ok(plugins[id]) else Err(ErrPluginNotFound)
    }

    method RegisterFactory(id: string, factory: Factory) returns (err: Option<string>)
      modifies this
      ensures id in old(factories) ==> err == Some("factory '" + id + "' already registered") && factories == old(factories)
      ensures id !in old(factories) ==> err.None? && factories == old(factories)[id := factory]
      ensures plugins == old(plugins) && dependencies == old(dependencies)
    {
      if id in factories {
        return Some("factory '" + id + "' already registered");
      }
      factories := factories[id := factory];
      err := None;
    }

    /** CreatePlugin: refuses an existing plugin id or an unknown factory, and
      * registers what the factory builds under the requested id. */
    method CreatePlugin(factoryID: string, pluginID: string, config: map<string, Value>) returns (r: Result<PluginState, string>)
      modifies this
      ensures pluginID in old(plugins) ==> r == Err("plugin '" + pluginID + "' already exists")
      ensures pluginID !in old(plugins) && factoryID !in factories ==> r == Err("factory '" + factoryID + "' not found")
      ensures pluginID !in old(plugins) && factoryID in factories ==>
        var made := factories[factoryID](pluginID, config);
        r == (if made.Err? then Err("failed to create plugin '" + pluginID + "': " + made.error) else made)
      ensures plugins == if r.Ok? then old(plugins)[pluginID := r.value] else old(plugins)
      ensures factories == old(factories) && dependencies == old(dependencies)
      ensures old(Valid()) ==> Valid()
      ensures old(Tidy()) ==> Tidy()
    {
      if pluginID in plugins {
        return Err("plugin '" + pluginID + "' already exists");
      }
      if factoryID !in factories {
        return Err("factory '" + factoryID + "' not found");
      }
      var made := factories[factoryID](pluginID, config);
      if made.Err? {
        return Err("failed to create plugin '" + pluginID + "': " + made.error);
      }
      plugins := plugins[pluginID := made.value];
      r := made;
    }

    /** The registered plugins passing `p`, one entry per registered id, in map order. */
    method Select(p: PluginState -> bool) returns (r: seq<PluginState>)
      ensures forall s :: s in r <==> exists id :: id in plugins && plugins[id] == s && p(s)
      ensures |r| <= |plugins|
      ensures |r| == |set id | id in plugins && p(plugins[id])|
    {
      r := SelectValues(plugins, p);
      assert Passing(plugins, p) == set id | id in plugins && p(plugins[id]);
      SubsetCard(Passing(plugins, p), plugins.Keys);
      assert |plugins.Keys| == |plugins|;
    }

    /** ListPlugins: every registered plugin, one entry per registered id. */
    method ListPlugins() returns (r: seq<PluginState>)
      ensures forall s :: s in r <==> s in plugins.Values
      ensures |r| == |plugins|
    {
      var any := (s: PluginState) => true;
      r := SelectValues(plugins, any);
      assert Passing(plugins, any) == plugins.Keys;
      assert |plugins.Keys| == |plugins|;
    }

    method ListPluginsByType(pluginType: string) returns (r: seq<PluginState>)
      ensures forall s :: s in r <==> s in plugins.Values && s.pluginType == pluginType
    {
      r := Select((s: PluginState) => s.pluginType == pluginType);
    }

    method ListPluginsByCapability(capability: string) returns (r: seq<PluginState>)
      ensures forall s :: s in r <==> s in plugins.Values && capability in s.capabilities
    {
      r := Select((s: PluginState) => capability in s.capabilities);
    }

    method InitializePlugin(id: string, config: map<string, Value>) returns (err: Option<string>)
      modifies this
      ensures id !in old(plugins) ==> err == Some(ErrPluginNotFound) && plugins == old(plugins)
      ensures id in old(plugins) ==> err.None? && plugins == old(plugins)[id := AfterInitialize(old(plugins)[id], config)]
      ensures factories == old(factories) && dependencies == old(dependencies)
      ensures old(Valid()) ==> Valid()
      ensures old(Tidy()) ==> Tidy()
    {
      if id !in plugins {
        return Some(ErrPluginNotFound);
      }
      plugins := plugins[id := AfterInitialize(plugins[id], config)];
      err := None;
    }

    /** checkDependencies: the first dependency, in list order, that is missing or not started. */
    method CheckDependencies(pid: string) returns (err: Option<string>)
      ensures err == FirstSome(DepsOf(dependencies, pid), DepProblem(plugins, pid))
    {
      var deps := DepsOf(dependencies, pid);
      FirstSomeWhole(deps, DepProblem(plugins, pid));
      var i := 0;
      while i < |deps|
        invariant 0 <= i <= |deps|
        invariant FirstSome(deps[i..], DepProblem(plugins, pid)) == FirstSome(deps, DepProblem(plugins, pid))
      {
        FirstSomeStep(deps, i, DepProblem(plugins, pid));
        var d := deps[i];
        if d !in plugins {
          return Some("dependency '" + d + "' for plugin '" + pid + "' not found");
        }
        if plugins[d].status != Started {
          return Some("dependency '" + d + "' for plugin '" + pid + "' is not started");
        }
        i := i + 1;
      }
      return None;
    }

    /** StartPlugin: fails unless the plugin exists, every dependency is
      * registered and started, and the plugin can start. */
    method StartPlugin(id: string, now: int) returns (err: Option<string>)
      modifies this
      ensures id !in old(plugins) ==> err == Some(ErrPluginNotFound)
      ensures err.None? <==>
        && id in old(plugins)
        && (forall d :: d in DepsOf(old(dependencies), id) ==> d in old(plugins) && old(plugins)[d].status == Started)
        && AfterStart(old(plugins)[id], now).Ok?
      ensures plugins == if err.None? then old(plugins)[id := AfterStart(old(plugins)[id], now).value] else old(plugins)
      ensures factories == old(factories) && dependencies == old(dependencies)
      ensures old(Valid()) ==> Valid()
      ensures old(Tidy()) ==> Tidy()
    {
      if id !in plugins {
        return Some(ErrPluginNotFound);
      }
      var depErr := CheckDependencies(id);
      DependenciesReady(dependencies, plugins, id);
      if depErr.Some? {
        return depErr;
      }
      var started := AfterStart(plugins[id], now);
      if started.Err? {
        return Some("failed to start plugin '" + id + "': " + started.error);
      }
      plugins := plugins[id := started.value];
      err := None;
    }

    /** checkReverseDependencies: some started plugin whose list names `id`, in map order. */
    method CheckReverseDependencies(id: string) returns (err: Option<string>)
      ensures err.None? <==> forall pid :: !StartedDependent(dependencies, plugins, id, pid)
      ensures err.Some? ==> exists pid :: (StartedDependent(dependencies, plugins, id, pid)
                                           && err.value == "cannot stop plugin '" + id + "': plugin '" + pid + "' depends on it")
    {
      var left := dependencies.Keys;
      while left != {}
        invariant left <= dependencies.Keys
        invariant forall pid :: pid in dependencies.Keys - left ==> !StartedDependent(dependencies, plugins, id, pid)
        decreases |left|
      {
        var pid :| pid in left;
        if pid in plugins && plugins[pid].status == Started {
          var has := Has(dependencies[pid], id);
          if has {
            assert StartedDependent(dependencies, plugins, id, pid);
            return Some("cannot stop plugin '" + id + "': plugin '" + pid + "' depends on it");
          }
        }
        left := left - {pid};
      }
      return None;
    }

    /** StopPlugin: fails if a started plugin depends on it or it is not started. */
    method StopPlugin(id: string, now: int) returns (err: Option<string>)
      modifies this
      ensures id !in old(plugins) ==> err == Some(ErrPluginNotFound)
      ensures err.None? <==>
        && id in old(plugins)
        && (forall pid :: !StartedDependent(old(dependencies), old(plugins), id, pid))
        && AfterStop(old(plugins)[id], now).Ok?
      ensures plugins == if err.None? then old(plugins)[id := AfterStop(old(plugins)[id], now).value] else old(plugins)
      ensures factories == old(factories) && dependencies == old(dependencies)
      ensures old(Valid()) ==> Valid()
      ensures old(Tidy()) ==> Tidy()
    {
      if id !in plugins {
        return Some(ErrPluginNotFound);
      }
      var revErr := CheckReverseDependencies(id);
      if revErr.Some? {
        return revErr;
      }
      var stopped := AfterStop(plugins[id], now);
      if stopped.Err? {
        return Some("failed to stop plugin '" + id + "': " + stopped.error);
      }
      plugins := plugins[id := stopped.value];
      err := None;
    }

    method CleanupPlugin(id: string) returns (err: Option<string>)
      modifies this
      ensures id !in old(plugins) ==> err == Some(ErrPluginNotFound)
      ensures err.None? <==> id in old(plugins) && AfterCleanup(old(plugins)[id]).Ok?
      ensures plugins == if err.None? then old(plugins)[id := AfterCleanup(old(plugins)[id]).value] else old(plugins)
      ensures factories == old(factories) && dependencies == old(dependencies)
      ensures old(Valid()) ==> Valid()
      ensures old(Tidy()) ==> Tidy()
    {
      if id !in plugins {
        return Some(ErrPluginNotFound);
      }
      var cleaned := AfterCleanup(plugins[id]);
      if cleaned.Err? {
        return Some("failed to cleanup plugin '" + id + "': " + cleaned.error);
      }
      plugins := plugins[id := cleaned.value];
      err := None;
    }

    /** AddDependency: both plugins must exist; an existing dependency is not added twice. */
    method AddDependency(pluginID: string, dependencyID: string) returns (err: Option<string>)
      modifies this
      ensures pluginID !in old(plugins) ==> err == Some("plugin '" + pluginID + "' not found") && dependencies == old(dependencies)
      ensures pluginID in old(plugins) && dependencyID !in old(plugins) ==>
        err == Some("dependency plugin '" + dependencyID + "' not found") && dependencies == old(dependencies)
      ensures pluginID in old(plugins) && dependencyID in old(plugins) ==>
        && err.None?
        && var ds := DepsOf(old(dependencies), pluginID);
           dependencies == old(dependencies)[pluginID := if dependencyID in ds then ds else ds + [dependencyID]]
      ensures plugins == old(plugins) && factories == old(factories)
      ensures old(Valid()) ==> Valid()
      ensures old(Tidy()) ==> Tidy()
    {
      if pluginID !in plugins {
        return Some("plugin '" + pluginID + "' not found");
      }
      if dependencyID !in plugins {
        return Some("dependency plugin '" + dependencyID + "' not found");
      }
      if pluginID !in dependencies {
        dependencies := dependencies[pluginID := []];
      }
      var has := Has(dependencies[pluginID], dependencyID);
      if !has {
        dependencies := dependencies[pluginID := dependencies[pluginID] + [dependencyID]];
      }
      err := None;
    }

    /** RemoveDependency: the first occurrence is replaced by the last entry
      * and the list shortened; nothing happens when it is not listed. */
    method RemoveDependency(pluginID: string, dependencyID: string)
      modifies this
      ensures pluginID in old(dependencies) && dependencyID in old(dependencies)[pluginID] ==>
        exists i :: (0 <= i < |old(dependencies)[pluginID]| && old(dependencies)[pluginID][i] == dependencyID
                     && dependencyID !in old(dependencies)[pluginID][..i]
                     && dependencies == old(dependencies)[pluginID := SwapRemove(old(dependencies)[pluginID], i)])
      ensures !(pluginID in old(dependencies) && dependencyID in old(dependencies)[pluginID]) ==> dependencies == old(dependencies)
      ensures plugins == old(plugins) && factories == old(factories)
      ensures old(Valid()) ==> Valid()
      ensures old(Tidy()) ==> Tidy()
    {
      if pluginID !in dependencies {
        return;
      }
      var deps := dependencies[pluginID];
      var k := Find(deps, dependencyID);
      if k.Some? {
        RemovalKeepsInvariants(plugins, dependencies, pluginID, k.value);
        dependencies := dependencies[pluginID := SwapRemove(deps, k.value)];
      }
    }

    method GetDependencies(pluginID: string) returns (r: Result<seq<string>, string>)
      ensures pluginID !in plugins ==> r == Err("plugin '" + pluginID + "' not found")
      ensures pluginID in plugins ==> r == Ok(DepsOf(dependencies, pluginID))
    {
      if pluginID !in plugins {
        return Err("plugin '" + pluginID + "' not found");
      }
      if pluginID !in dependencies {
        return Ok([]);
      }
      return Ok(dependencies[pluginID]);
    }

    /** GetReverseDependencies: exactly the plugins whose lists name the id, each once. */
    method GetReverseDependencies(pluginID: string) returns (r: Result<seq<string>, string>)
      ensures pluginID !in plugins ==> r == Err("plugin '" + pluginID + "' not found")
      ensures pluginID in plugins ==> (r.Ok? && Distinct(r.value)
                                        && forall pid :: pid in r.value <==> pid in dependencies && pluginID in dependencies[pid])
    {
      if pluginID !in plugins {
        return Err("plugin '" + pluginID + "' not found");
      }
      var rev: seq<string> := [];
      var left := dependencies.Keys;
      while left != {}
        invariant left <= dependencies.Keys
        invariant Distinct(rev)
        invariant forall pid :: pid in rev <==> pid in dependencies.Keys - left && pluginID in dependencies[pid]
        decreases |left|
      {
        var pid :| pid in left;
        var has := Has(dependencies[pid], pluginID);
        if has {
          rev := rev + [pid];
        }
        left := left - {pid};
      }
      return Ok(rev);
    }
  }

  /** A plugin listed as its own dependency can never be started through the registry. */
  lemma SelfDependencyNeverStarts(deps: map<string, seq<string>>, plugins: map<string, PluginState>, id: string, now: int)
    requires id in plugins && id in DepsOf(deps, id)
    ensures !((forall d :: d in DepsOf(deps, id) ==> d in plugins && plugins[d].status == Started)
              && AfterStart(plugins[id], now).Ok?)
  {
  }

  /** A fresh registry holding `a` and `b`, with `b` depending on `a`. */
  method TwoPluginRegistry(a: PluginState, b: PluginState) returns (r: Registry)
    requires a.id != b.id
    ensures fresh(r)
    ensures r.plugins.Keys == {a.id, b.id}
    ensures r.dependencies.Keys == {b.id} && r.dependencies[b.id] == [a.id]
  {
    r := new Registry();
    var e1 := r.RegisterPlugin(a);
    var e2 := r.RegisterPlugin(b);
    assert DepsOf(r.dependencies, b.id) == [];
    var e3 := r.AddDependency(b.id, a.id);
    assert [] + [a.id] == [a.id];
  }

  /** The as-written UnregisterPlugin: with `b` depending on `a`,
    * unregistering `b` succeeds, yet `a` still cannot be unregistered,
    * because `b`'s list stays behind; only removing that dependency
    * explicitly frees `a`. */
  method StaleDependencyBlocksUnregister(a: PluginState, b: PluginState)
    returns (errB: Option<string>, errA: Option<string>, errAfterRemove: Option<string>)
    requires a.id != b.id
    ensures errB.None? && errA.Some? && errAfterRemove.None?
  {
    var r := TwoPluginRegistry(a, b);
    errB := r.UnregisterPlugin(b.id);
    assert a.id in r.dependencies[b.id];
    errA := r.UnregisterPlugin(a.id);
    r.RemoveDependency(b.id, a.id);
    assert [a.id][..0] == [] && SwapRemove([a.id], 0) == [];
    assert r.dependencies.Keys == {b.id} && r.dependencies[b.id] == [];
    errAfterRemove := r.UnregisterPlugin(a.id);
  }

  /** The same steps with the corrected UnregisterPlugin: `a` is free once `b` is gone. */
  method CorrectedUnregisterScenario(a: PluginState, b: PluginState) returns (errB: Option<string>, errA: Option<string>)
    requires a.id != b.id
    ensures errB.None? && errA.None?
  {
    var r := TwoPluginRegistry(a, b);
    errB := r.UnregisterPluginCorrected(b.id);
    assert r.dependencies.Keys == {};
    errA := r.UnregisterPluginCorrected(a.id);
  }

  /** With the corrected UnregisterPlugin, once no remaining plugin depends
    * on `b`, nothing blocks unregistering it. */
  lemma CorrectedUnregisterFreesDependency(deps: map<string, seq<string>>, a: string, b: string)
    requires a in deps && b in deps[a]
    requires forall pid :: pid in deps && pid != a ==> b !in deps[pid]
    ensures DependedOn(deps, b) && !DependedOn(deps - {a}, b)
  {
  }
}
