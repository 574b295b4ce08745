// The request helpers and route table of internal/api/rest/router.go:
// Bearer-token extraction, the client address behind trusted proxies, and
// route registration and documentation defaults. Headers arrive as the
// strings `Header.Get` returns ("" when absent); `net.SplitHostPort` is a
// parameter.
module Router {
  import opened Wrappers
  import opened StrUtil
  import opened Seqs

  const BearerPrefix := "Bearer "

  /** ExtractBearerToken on the value of the Authorization header. */
  function ExtractBearerToken(authHeader: string): (r: Result<string, string>)
    ensures authHeader == "" ==> r == Err("no Authorization header found")
    ensures authHeader != "" && !HasPrefix(authHeader, BearerPrefix) ==> r == Err("Authorization header is not a Bearer token")
    ensures authHeader == BearerPrefix ==> r == Err("Bearer token is empty")
    ensures r.Ok? <==> HasPrefix(authHeader, BearerPrefix) && |authHeader| > |BearerPrefix|
    ensures r.Ok? ==> BearerPrefix + r.value == authHeader && r.value != ""
  {
    if authHeader == "" then Err("no Authorization header found")
    else if !HasPrefix(authHeader, BearerPrefix) then Err("Authorization header is not a Bearer token")
    else
      var token := TrimPrefix(authHeader, BearerPrefix);
      if token == "" then Err("Bearer token is empty") else Ok(token)
  }

  /** Any non-empty token survives the round trip through the header. */
  lemma BearerRoundTrip(token: string)
    requires token != ""
    ensures ExtractBearerToken(BearerPrefix + token) == Ok(token)
  {
    assert HasPrefix(BearerPrefix + token, BearerPrefix) by {
      assert (BearerPrefix + token)[..|BearerPrefix|] == BearerPrefix;
    }
  }

  /** isProxyIP. */
  method IsProxyIP(ip: string, trustedProxies: seq<string>) returns (r: bool)
    ensures r <==> ip in trustedProxies
  {
    var i := 0;
    while i < |trustedProxies|
      invariant i <= |trustedProxies|
      invariant ip !in trustedProxies[..i]
    {
      if ip == trustedProxies[i] {
        return true;
      }
      i := i + 1;
    }
    assert trustedProxies[..i] == trustedProxies;
    r := false;
  }

  /** The comma-separated X-Forwarded-For entries, each trimmed. */
  function Candidates(forwardedFor: string): (r: seq<string>)
    ensures |r| == |Split(forwardedFor, ',')|
    ensures forall i :: 0 <= i < |r| ==> r[i] == TrimSpace(Split(forwardedFor, ',')[i])
  {
    var ips := Split(forwardedFor, ',');
    seq(|ips|, i requires 0 <= i < |ips| => TrimSpace(ips[i]))
  }

  function Untrusted(trustedProxies: seq<string>): string -> Option<string>
  {
    (ip: string) => if ip in trustedProxies then None else Some(ip)
  }

  /** The address GetIPAddress settles on: the first untrusted forwarded
    * entry, else X-Real-IP trimmed, else the host of RemoteAddr, else
    * RemoteAddr itself. */
  function ClientIP(forwardedFor: string, realIP: string, remoteAddr: string, trustedProxies: seq<string>,
                    splitHost: string -> Option<string>): string
  {
    var found := if forwardedFor != "" then FirstSome(Candidates(forwardedFor), Untrusted(trustedProxies)) else None;
    if found.Some? then found.value
    else if realIP != "" then TrimSpace(realIP)
    else if splitHost(remoteAddr).Some? then splitHost(remoteAddr).value
    else remoteAddr
  }

  /** GetIPAddress, with the headers and the remote address of the request. */
  method GetIPAddress(forwardedFor: string, realIP: string, remoteAddr: string, trustedProxies: seq<string>,
                      splitHost: string -> Option<string>) returns (ip: string)
    ensures ip == ClientIP(forwardedFor, realIP, remoteAddr, trustedProxies, splitHost)
  {
    if forwardedFor != "" {
      var ips := Split(forwardedFor, ',');
      ghost var cands := Candidates(forwardedFor);
      var clientIP := TrimSpace(ips[0]);
      var proxy := IsProxyIP(clientIP, trustedProxies);
      FirstSomeWhole(cands, Untrusted(trustedProxies));
      FirstSomeStep(cands, 0, Untrusted(trustedProxies));
      if !proxy {
        return clientIP;
      }
      var i := 1;
      while i < |ips|
        invariant 1 <= i <= |ips|
        invariant FirstSome(cands, Untrusted(trustedProxies)) == FirstSome(cands[i..], Untrusted(trustedProxies))
      {
        var next := TrimSpace(ips[i]);
        proxy := IsProxyIP(next, trustedProxies);
        FirstSomeStep(cands, i, Untrusted(trustedProxies));
        if !proxy {
          return next;
        }
        i := i + 1;
      }
    }
    if realIP != "" {
      return TrimSpace(realIP);
    }
    var host := splitHost(remoteAddr);
    if host.None? {
      return remoteAddr;
    }
    ip := host.value;
  }

  /** The forwarded entry chosen is untrusted and every entry before it is
    * trusted; without one, X-Real-IP and then RemoteAddr decide. */
  lemma ClientIPMeaning(forwardedFor: string, realIP: string, remoteAddr: string, trustedProxies: seq<string>,
                        splitHost: string -> Option<string>)
    ensures var cands := Candidates(forwardedFor);
      var ip := ClientIP(forwardedFor, realIP, remoteAddr, trustedProxies, splitHost);
      && (forwardedFor != "" && (exists i :: 0 <= i < |cands| && cands[i] !in trustedProxies) ==>
            exists i :: 0 <= i < |cands| && ip == cands[i] && ip !in trustedProxies
              && forall j :: 0 <= j < i ==> cands[j] in trustedProxies)
      && ((forwardedFor == "" || forall i :: 0 <= i < |cands| ==> cands[i] in trustedProxies) ==>
            ip == (if realIP != "" then TrimSpace(realIP)
                   else if splitHost(remoteAddr).Some? then splitHost(remoteAddr).value else remoteAddr))
  {
    var cands := Candidates(forwardedFor);
    var f := Untrusted(trustedProxies);
    FirstSomeSpec(cands, f);
    assert forall i :: 0 <= i < |cands| ==> (f(cands[i]).None? <==> cands[i] in trustedProxies);
  }

  datatype Route = Route(path: string, httpMethod: string, hasHandler: bool, name: string, description: string,
                         tags: seq<string>, deprecated: bool, version: string)

  /** What RegisterRoute refuses a route for, if anything. */
  function RouteProblem(r: Route): (e: Option<string>)
    ensures e.None? <==> r.path != "" && r.httpMethod != "" && r.hasHandler
  {
    if r.path == "" then Some("route path cannot be empty")
    else if r.httpMethod == "" then Some("route method cannot be empty")
    else if !r.hasHandler then Some("route handler cannot be nil")
    else None
  }

  /** The routes RegisterRoutes registers before it meets the first invalid one. */
  function ValidPrefix(rs: seq<Route>): (p: seq<Route>)
    ensures |p| <= |rs| && p == rs[..|p|]
    ensures forall i :: 0 <= i < |p| ==> RouteProblem(rs[i]).None?
    ensures |p| < |rs| ==> RouteProblem(rs[|p|]).Some?
  {
    if rs == [] || RouteProblem(rs[0]).Some? then [] else [rs[0]] + ValidPrefix(rs[1..])
  }

  datatype Contact = Contact(name: string, url: string, email: string)

  datatype ApiDocumentation = ApiDocumentation(title: string, description: string, version: string,
                                               contact: Option<Contact>, termsOfService: string)

  /** GenerateDocumentation's defaults for an empty title and version. */
  function GenerateDocumentation(docs: ApiDocumentation): (d: ApiDocumentation)
    ensures d.title == (if docs.title == "" then "API Documentation" else docs.title)
    ensures d.version == (if docs.version == "" then "1.0.0" else docs.version)
    ensures d.title != "" && d.version != ""
    ensures d.(title := docs.title, version := docs.version) == docs
  {
    docs.(title := if docs.title == "" then "API Documentation" else docs.title,
          version := if docs.version == "" then "1.0.0" else docs.version)
  }

  class ApiRouter {
    var routes: seq<Route>
    var basePath: string
    var documentation: ApiDocumentation

    constructor()
      ensures routes == [] && basePath == "" && documentation == ApiDocumentation("", "", "", None, "")
    {
      routes := [];
      basePath := "";
      documentation := ApiDocumentation("", "", "", None, "");
    }

    /** RegisterRoute: an invalid route is refused; a valid one is appended once. */
    method RegisterRoute(route: Route) returns (err: Option<string>)
      modifies this
      ensures err == RouteProblem(route)
      ensures routes == if err.None? then old(routes) + [route] else old(routes)
      ensures basePath == old(basePath) && documentation == old(documentation)
    {
      if route.path == "" {
        return Some("route path cannot be empty");
      }
      if route.httpMethod == "" {
        return Some("route method cannot be empty");
      }
      if !route.hasHandler {
        return Some("route handler cannot be nil");
      }
      routes := routes + [route];
      err := None;
    }

    /** RegisterRoutes: registers in order and stops at the first invalid route. */
    method RegisterRoutes(rs: seq<Route>) returns (err: Option<string>)
      modifies this
      ensures err == FirstSome(rs, RouteProblem)
      ensures routes == old(routes) + ValidPrefix(rs)
      ensures basePath == old(basePath) && documentation == old(documentation)
    {
      var i := 0;
      FirstSomeWhole(rs, RouteProblem);
      while i < |rs|
        invariant i <= |rs| && i <= |ValidPrefix(rs)|
        invariant routes == old(routes) + rs[..i]
        invariant FirstSome(rs, RouteProblem) == FirstSome(rs[i..], RouteProblem)
        invariant basePath == old(basePath) && documentation == old(documentation)
      {
        FirstSomeStep(rs, i, RouteProblem);
        assert rs[..i + 1] == rs[..i] + [rs[i]];
        err := RegisterRoute(rs[i]);
        if err.Some? {
          ValidPrefixStops(rs, i);
          return;
        }
        i := i + 1;
      }
      ValidPrefixStops(rs, i);
      err := None;
    }

    method SetDocumentation(docs: ApiDocumentation)
      modifies this
      ensures documentation == docs && routes == old(routes) && basePath == old(basePath)
    {
      documentation := docs;
    }

    method WithBasePath(path: string)
      modifies this
      ensures basePath == path && routes == old(routes) && documentation == old(documentation)
    {
      basePath := path;
    }
  }

  /** The valid prefix ends where the first invalid route is, or at the end. */
  lemma ValidPrefixStops(rs: seq<Route>, i: nat)
    requires i <= |rs| && i <= |ValidPrefix(rs)|
    requires i < |rs| ==> RouteProblem(rs[i]).Some?
    ensures ValidPrefix(rs) == rs[..i]
  {
  }
}
