// The reverse-proxy routes of archive/internal/proxy/manager.go: a route
// per path with its backend targets, and the round-robin choice of the
// next healthy target. URL parsing, the ids uuid.New hands out and the
// clock are parameters; the proxying itself is not part of this model.
module ProxyManager {
  import opened Wrappers

  datatype ProxyTarget = ProxyTarget(id: string, url: string, health: bool, lastCheck: int)

  /** The index `k` places on from `current` in a ring of `n`: (current + k) mod n. */
  function Wrap(current: nat, k: nat, n: nat): (i: nat)
    requires current < n && k <= n
    ensures i < n || (k == n && current == 0 && i == n)
  {
    if current + k < n then current + k else current + k - n
  }

  /** The first offset k in [from, |ts|) whose target, counted round from `current`, is healthy. */
  function FirstHealthy(ts: seq<ProxyTarget>, current: nat, from: nat): (r: Option<nat>)
    requires current < |ts|
    ensures r.Some? ==> from <= r.value < |ts|
    decreases |ts| - from
  {
    if from >= |ts| then None
    else if ts[Wrap(current, from, |ts|)].health then Some(from)
    else FirstHealthy(ts, current, from + 1)
  }

  /** The offset found is healthy and every offset before it is not; none
    * is found only when every later offset is unhealthy. */
  lemma {:induction false} FirstHealthySpec(ts: seq<ProxyTarget>, current: nat, from: nat)
    requires current < |ts|
    ensures var r := FirstHealthy(ts, current, from);
      && (r.Some? ==> ts[Wrap(current, r.value, |ts|)].health
                      && forall k :: from <= k < r.value ==> !ts[Wrap(current, k, |ts|)].health)
      && (r.None? <==> forall k :: from <= k < |ts| ==> !ts[Wrap(current, k, |ts|)].health)
    decreases |ts| - from
  {
    if from < |ts| && !ts[Wrap(current, from, |ts|)].health {
      FirstHealthySpec(ts, current, from + 1);
    }
  }

  /** Go's cursor step `(i + 1) % n` moves one place on round the ring, and
    * a whole round brings the cursor back to where it started. */
  lemma StepWraps(current: nat, k: nat, n: nat)
    requires current < n && k < n
    ensures (Wrap(current, k, n) + 1) % n == if k + 1 < n then Wrap(current, k + 1, n) else current
  {
    var w := Wrap(current, k, n) + 1;
    assert 1 <= w <= n;
    if w < n {
      ModSmall(w, n);
    } else {
      ModSelf(n);
    }
  }

  lemma ModSmall(a: nat, n: nat)
    requires a < n
    ensures a % n == a
  {
  }

  lemma ModSelf(n: nat)
    requires 0 < n
    ensures n % n == 0
  {
  }

  /** Every target index is some offset below |ts| from `current`. */
  lemma EveryIndexReached(current: nat, n: nat, i: nat) returns (k: nat)
    requires current < n && i < n
    ensures k < n && Wrap(current, k, n) == i
  {
    k := if i >= current then i - current else n - current + i;
  }

  /** No healthy target is found exactly when every target is unhealthy. */
  lemma NoneMeansAllDown(ts: seq<ProxyTarget>, current: nat)
    requires current < |ts|
    ensures FirstHealthy(ts, current, 0).None? <==> forall i :: 0 <= i < |ts| ==> !ts[i].health
  {
    FirstHealthySpec(ts, current, 0);
    if FirstHealthy(ts, current, 0).None? {
      forall i | 0 <= i < |ts| ensures !ts[i].health {
        var k := EveryIndexReached(current, |ts|, i);
      }
    }
  }

  class ProxyRoute {
    var id: string
    var path: string
    var targets: seq<ProxyTarget>
    var loadBalance: bool
    var current: nat

    /** The cursor points at a target, or is 0 when there is none. */
    predicate Valid()
      reads this
    {
      current == 0 || current < |targets|
    }

    constructor(id: string, path: string, targets: seq<ProxyTarget>, loadBalance: bool)
      ensures Valid()
      ensures this.id == id && this.path == path && this.targets == targets && this.loadBalance == loadBalance
      ensures current == 0
    {
      this.id := id;
      this.path := path;
      this.targets := targets;
      this.loadBalance := loadBalance;
      current := 0;
    }

    /** getNextTarget: from the cursor on, the first healthy target within
      * one round; the cursor ends just past it, or back where it started
      * when no target is healthy. */
    method GetNextTarget() returns (r: Option<ProxyTarget>)
      modifies this
      requires Valid()
      ensures Valid()
      ensures old(targets) == [] ==> r.None? && current == old(current)
      ensures old(targets) != [] ==>
        var k := FirstHealthy(old(targets), old(current), 0);
        && r == (if k.Some? then Some(old(targets)[Wrap(old(current), k.value, |old(targets)|)]) else None)
        && current == (if k.Some? then (Wrap(old(current), k.value, |old(targets)|) + 1) % |old(targets)| else old(current))
      ensures targets == old(targets) && id == old(id) && path == old(path) && loadBalance == old(loadBalance)
    {
      var n := |targets|;
      if n == 0 {
        return None;
      }
      ghost var start := current;
      var target := targets[current];
      var checked := 0;
      while checked < n
        invariant 0 <= checked <= n && n == |targets| && current < n && start < n
        invariant current == if checked < n then Wrap(start, checked, n) else start
        invariant checked > 0 ==> !target.health
        invariant FirstHealthy(targets, start, 0) == FirstHealthy(targets, start, checked)
        invariant targets == old(targets) && id == old(id) && path == old(path) && loadBalance == old(loadBalance)
        invariant start == old(current)
      {
        target := targets[current];
        StepWraps(start, checked, n);
        current := (current + 1) % n;
        if target.health {
          return Some(target);
        }
        checked := checked + 1;
      }
      if !target.health {
        return None;
      }
      return Some(target);
    }

    /** The proxy's error handler: the target that failed is marked down at `now`. */
    method MarkDown(i: nat, now: int)
      modifies this
      requires i < |targets|
      ensures targets == old(targets)[i := old(targets)[i].(health := false, lastCheck := now)]
      ensures current == old(current) && id == old(id) && path == old(path) && loadBalance == old(loadBalance)
    {
      targets := targets[i := targets[i].(health := false, lastCheck := now)];
    }
  }

  /** The message the route operations give for an unparsable URL. */
  function InvalidURL(u: string, e: string): string
  {
    "invalid target URL " + u + ": " + e
  }

  /** The target list AddRoute and UpdateRoute build: one healthy target per
    * URL, in order, or the error of the first URL that does not parse. */
  method BuildTargets(targetURLs: seq<string>, parse: string -> Result<string, string>, ids: nat -> string, now: int)
    returns (r: Result<seq<ProxyTarget>, string>)
    ensures r.Ok? <==> forall i :: 0 <= i < |targetURLs| ==> parse(targetURLs[i]).Ok?
    ensures r.Ok? ==> |r.value| == |targetURLs| && forall i :: 0 <= i < |targetURLs| ==>
      r.value[i] == ProxyTarget(ids(i), parse(targetURLs[i]).value, true, now)
    ensures r.Err? ==> exists i :: (0 <= i < |targetURLs| && parse(targetURLs[i]).Err?
      && r.error == InvalidURL(targetURLs[i], parse(targetURLs[i]).error)
      && forall j :: 0 <= j < i ==> parse(targetURLs[j]).Ok?)
  {
    var targets := [];
    var i := 0;
    while i < |targetURLs|
      invariant 0 <= i <= |targetURLs| && |targets| == i
      invariant forall j :: 0 <= j < i ==> parse(targetURLs[j]).Ok?
      invariant forall j :: 0 <= j < i ==> targets[j] == ProxyTarget(ids(j), parse(targetURLs[j]).value, true, now)
    {
      var parsed := parse(targetURLs[i]);
      if parsed.Err? {
        return Err(InvalidURL(targetURLs[i], parsed.error));
      }
      targets := targets + [ProxyTarget(ids(i), parsed.value, true, now)];
      i := i + 1;
    }
    return Ok(targets);
  }

  class Manager {
    var routes: map<string, ProxyRoute>

    /** Every route is valid and no two paths share a route. */
    predicate Valid()
      reads this, routes.Values
    {
      && (forall p :: p in routes ==> routes[p].Valid())
      && (forall p, q :: p in routes && q in routes && p != q ==> routes[p] != routes[q])
    }

    /** NewManager. */
    constructor()
      ensures Valid() && routes == map[]
    {
      routes := map[];
    }

    /** AddRoute: a new route, cursor at 0, replacing any route at the same path. */
    method AddRoute(path: string, targetURLs: seq<string>, loadBalance: bool, parse: string -> Result<string, string>,
                    routeID: string, ids: nat -> string, now: int)
      returns (route: Option<ProxyRoute>, err: Option<string>)
      modifies this
      requires Valid()
      ensures Valid()
      ensures err.Some? <==> exists i :: 0 <= i < |targetURLs| && parse(targetURLs[i]).Err?
      ensures err.Some? ==> route.None? && routes == old(routes)
      ensures err.None? ==> route.Some? && fresh(route.value) && routes == old(routes)[path := route.value]
      ensures err.None? ==> var r := route.value;
        && r.id == routeID && r.path == path && r.loadBalance == loadBalance && r.current == 0
        && |r.targets| == |targetURLs|
        && forall i :: 0 <= i < |targetURLs| ==> r.targets[i] == ProxyTarget(ids(i), parse(targetURLs[i]).value, true, now)
    {
      var built := BuildTargets(targetURLs, parse, ids, now);
      if built.Err? {
        return None, Some(built.error);
      }
      var r := new ProxyRoute(routeID, path, built.value, loadBalance);
      routes := routes[path := r];
      return Some(r), None;
    }

    /** RemoveRoute. */
    method RemoveRoute(path: string)
      modifies this
      requires Valid()
      ensures Valid()
      ensures routes == old(routes) - {path}
    {
      routes := routes - {path};
    }

    /** UpdateRoute: an unknown path or an unparsable URL is an error and
      * changes nothing; otherwise the route at the path gets the new
      * targets and mode and its cursor goes back to 0. */
    method UpdateRoute(path: string, targetURLs: seq<string>, loadBalance: bool, parse: string -> Result<string, string>,
                       ids: nat -> string, now: int)
      returns (err: Option<string>)
      modifies routes.Values
      requires Valid()
      ensures Valid()
      ensures path !in routes ==> err == Some("route not found: " + path)
      ensures path in routes ==> (err.Some? <==> exists i :: 0 <= i < |targetURLs| && parse(targetURLs[i]).Err?)
      ensures err.None? ==> var r := routes[path];
        && r.loadBalance == loadBalance && r.current == 0 && r.id == old(r.id) && r.path == old(r.path)
        && |r.targets| == |targetURLs|
        && forall i :: 0 <= i < |targetURLs| ==> r.targets[i] == ProxyTarget(ids(i), parse(targetURLs[i]).value, true, now)
      ensures forall p :: p in routes && (err.Some? || p != path) ==>
        && routes[p].targets == old(routes[p].targets) && routes[p].current == old(routes[p].current)
        && routes[p].loadBalance == old(routes[p].loadBalance)
      ensures forall p :: p in routes ==> routes[p].id == old(routes[p].id) && routes[p].path == old(routes[p].path)
    {
      if path !in routes {
        return Some("route not found: " + path);
      }
      var route := routes[path];
      var built := BuildTargets(targetURLs, parse, ids, now);
      if built.Err? {
        return Some(built.error);
      }
      route.targets := built.value;
      route.loadBalance := loadBalance;
      route.current := 0;
      err := None;
    }

    /** The backend ServeHTTP chooses: 404 without a route; the next healthy
      * target of a load-balanced route; else the first target whatever its
      * health; 503 when there is none. */
    method SelectTarget(path: string) returns (r: Result<ProxyTarget, int>)
      modifies routes.Values
      requires Valid()
      ensures Valid()
      ensures forall p :: p in routes ==>
        && routes[p].targets == old(routes[p].targets) && routes[p].loadBalance == old(routes[p].loadBalance)
        && routes[p].id == old(routes[p].id) && routes[p].path == old(routes[p].path)
      ensures path !in routes ==> r == Err(404)
      ensures path in routes && !routes[path].loadBalance ==>
        r == (if routes[path].targets == [] then Err(503) else Ok(routes[path].targets[0]))
      ensures path in routes && routes[path].loadBalance && routes[path].targets != [] ==>
        var ts := routes[path].targets;
        var k := FirstHealthy(ts, old(routes[path].current), 0);
        r == (if k.Some? then Ok(ts[Wrap(old(routes[path].current), k.value, |ts|)]) else Err(503))
      ensures path in routes && routes[path].targets == [] ==> r == Err(503)
      ensures path in routes && routes[path].loadBalance && routes[path].targets != [] ==>
        var ts := routes[path].targets;
        var k := FirstHealthy(ts, old(routes[path].current), 0);
        routes[path].current == (if k.Some? then (Wrap(old(routes[path].current), k.value, |ts|) + 1) % |ts|
                                 else old(routes[path].current))
      ensures path in routes && (!routes[path].loadBalance || routes[path].targets == []) ==>
        routes[path].current == old(routes[path].current)
      ensures r.Ok? ==> path in routes && r.value in routes[path].targets
      ensures forall p :: p in routes && p != path ==> routes[p].current == old(routes[p].current)
    {
      if path !in routes {
        return Err(404);
      }
      var route := routes[path];
      var target: Option<ProxyTarget> := None;
      if route.loadBalance {
        target := route.GetNextTarget();
      } else if |route.targets| > 0 {
        target := Some(route.targets[0]);
      }
      if target.None? {
        return Err(503);
      }
      return Ok(target.value);
    }
  }

  /** With every target up, the round robin serves the target at the cursor
    * and moves the cursor one place on. */
  lemma AllUpRotates(ts: seq<ProxyTarget>, current: nat)
    requires current < |ts|
    requires forall i :: 0 <= i < |ts| ==> ts[i].health
    ensures FirstHealthy(ts, current, 0) == Some(0)
  {
  }
}
