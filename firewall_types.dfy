// The firewall's shared vocabulary: rules, request contexts, evaluation
// results and errors, the foreign services a firewall consults (address
// parsing and containment, regular expressions, the rate limiter behind it),
// and the priority orderings both rule stores keep their type indexes in.
//
// A stored rule is a reference in the source. Here it is a handle into a
// `map<Handle, Rule>` store: two index entries that hold the same handle see
// the same rule, and replacing a rule allocates a new handle.
module FirewallTypes {
  import opened Wrappers
  import opened StrUtil

  type Handle = nat

  const IPRule := "IP"
  const URLRule := "URL"
  const HeaderRule := "HEADER"
  const ContentRule := "CONTENT"
  const RateRule := "RATE"
  const GeoRule := "GEO"

  const ActionAllow := "ALLOW"
  const ActionRate := "RATE"
  const Inbound := "INBOUND"

  /** The text `net.IP.String()` prints for an address. */
  type IPAddr = string

  /** A parsed network: address and mask width out of the address width. */
  datatype IPNet = IPNet(ip: IPAddr, ones: nat, bits: nat)

  datatype Rule = Rule(
    id: string,
    ruleType: string,
    direction: string,
    priority: int,
    action: string,
    description: string,
    pattern: string,
    ipRange: Option<IPNet>,
    headerName: string,
    headerValue: string,
    rateLimit: int,
    ratePeriod: int,
    countries: seq<string>,
    isEnabled: bool,
    createdAt: int,
    updatedAt: int,
    tags: seq<string>)

  /** A request; a nil IP is `None`. */
  datatype Request = Request(
    ip: Option<IPAddr>,
    url: string,
    httpMethod: string,
    headers: map<string, string>,
    userAgent: string,
    country: string,
    path: string,
    timestamp: int,
    sessionID: string,
    userID: string)

  datatype Evaluation = Evaluation(
    action: string,
    matchedRule: Option<Rule>,
    reason: string,
    logLevel: string,
    throttleFor: int)

  datatype FirewallError = ErrRuleNotFound | ErrInvalidRule | ErrDuplicateRuleID

  /** `net.ParseCIDR`, `net.ParseIP`, `IP.To4() != nil` and `IPNet.Contains`. */
  datatype NetLib = NetLib(
    parseCIDR: string -> Option<IPNet>,
    parseIP: string -> Option<IPAddr>,
    isIPv4: IPAddr -> bool,
    contains: (IPNet, IPAddr) -> bool)

  /** `regexp.Compile(p) == nil` and `MatchString`. */
  datatype RegexLib = RegexLib(compiles: string -> bool, matches: (string, string) -> bool)

  /** The rate limiter behind a firewall, as one evaluation sees it: the
    * answer to its n-th `Allow(key, limit, period)` call, and the retry-after
    * duration `GetRemaining(key)` reports after that call. */
  datatype RateOracle = RateOracle(allow: (nat, string, int, int) -> bool, retryAfter: (nat, string) -> int)

  /** `request.IP.String()`, which prints "<nil>" for a nil address. */
  function IPString(ip: Option<IPAddr>): string
  {
    match ip
    case None => "<nil>"
    case Some(a) => a
  }

  /** The IP rule pattern as a network: a CIDR, else a single address as a
    * /32 (IPv4) or /128 (IPv6) network, else nothing. */
  function ParseIPRange(net: NetLib, pattern: string): (r: Option<IPNet>)
    ensures net.parseCIDR(pattern).Some? ==> r == net.parseCIDR(pattern)
    ensures r.None? <==> net.parseCIDR(pattern).None? && net.parseIP(pattern).None?
  {
    match net.parseCIDR(pattern)
    case Some(n) => Some(n)
    case None =>
      match net.parseIP(pattern)
      case None => None
      case Some(ip) => if net.isIPv4(ip) then Some(IPNet(ip, 32, 32)) else Some(IPNet(ip, 128, 128))
  }

  /** The validation by type both stores share, applied to a rule whose
    * defaults are already filled in; `compiles`, when present, adds the
    * regular expression compile check of the first store. */
  function ValidateByType(net: NetLib, rule: Rule, compiles: Option<string -> bool>): (r: Result<Rule, FirewallError>)
    ensures r.Ok? ==> r.value == rule.(ipRange := r.value.ipRange)
    ensures r.Ok? && rule.ruleType != IPRule ==> r.value == rule
    ensures r.Ok? && rule.ruleType == IPRule ==> r.value.ipRange.Some?
    ensures rule.ruleType == RateRule ==> (r.Ok? <==> rule.rateLimit > 0 && rule.ratePeriod > 0)
    ensures rule.ruleType == GeoRule ==> (r.Ok? <==> |rule.countries| > 0)
    ensures rule.ruleType in {URLRule, HeaderRule, ContentRule} ==>
      (r.Ok? <==> rule.pattern != [] && (compiles.Some? ==> compiles.value(rule.pattern)))
    ensures r.Err? ==> r.error == ErrInvalidRule
  {
    if rule.ruleType == IPRule then
      var range := if rule.ipRange.None? && rule.pattern != [] then ParseIPRange(net, rule.pattern) else rule.ipRange;
      if rule.ipRange.None? && rule.pattern != [] && range.None? then Err(ErrInvalidRule)
      else if range.None? then Err(ErrInvalidRule)
      else Ok(rule.(ipRange := range))
    else if rule.ruleType == URLRule || rule.ruleType == HeaderRule || rule.ruleType == ContentRule then
      if rule.pattern == [] then Err(ErrInvalidRule)
      else if compiles.Some? && !compiles.value(rule.pattern) then Err(ErrInvalidRule)
      else Ok(rule)
    else if rule.ruleType == RateRule then
      if rule.rateLimit <= 0 || rule.ratePeriod <= 0 then Err(ErrInvalidRule) else Ok(rule)
    else if rule.ruleType == GeoRule then
      if |rule.countries| == 0 then Err(ErrInvalidRule) else Ok(rule)
    else Ok(rule)
  }

  // ---- the rule store ----

  /** Every handle an index or the id map holds names a stored rule. */
  ghost predicate HandlesStored(store: map<Handle, Rule>, hs: seq<Handle>)
  {
    forall k :: 0 <= k < |hs| ==> hs[k] in store
  }

  /** The `range` loop of ListRules over the id map: every rule's handle
    * once, in the order the map is ranged over (here, an arbitrary one). */
  method RuleHandles(rules: map<string, Handle>, store: map<Handle, Rule>) returns (hs: seq<Handle>, ghost ids: seq<string>)
    requires forall id :: id in rules ==> rules[id] in store
    ensures |hs| == |rules| && HandlesStored(store, hs)
    ensures forall id :: id in rules ==> rules[id] in hs
    ensures forall h :: h in hs ==> exists id :: id in rules && rules[id] == h
    ensures Enumerates(rules, ids) && |ids| == |hs|
    ensures forall k :: 0 <= k < |hs| ==> hs[k] == rules[ids[k]]
  {
    hs := [];
    var left := rules.Keys;
    ghost var done: set<string> := {};
    ids := [];
    while left != {}
      invariant HandlesSoFar(rules, left, done, ids, hs)
      decreases |left|
    {
      var id :| id in left;
      HandlesStep(rules, left, done, ids, hs, id);
      hs := hs + [rules[id]];
      ids := ids + [id];
      left := left - {id};
      done := done + {id};
    }
    HandlesDone(rules, store, done, ids, hs);
  }

  /** The invariant of RuleHandles' loop: `hs` holds the handles of the ids
    * `done` (listed in `ids`), and `left` the ids still to go. */
  ghost predicate HandlesSoFar(rules: map<string, Handle>, left: set<string>, done: set<string>,
                               ids: seq<string>, hs: seq<Handle>)
  {
    && left + done == rules.Keys && left !! done
    && |hs| == |done| == |ids|
    && (forall k :: 0 <= k < |ids| ==> ids[k] in done && hs[k] == rules[ids[k]])
    && (forall a, b :: 0 <= a < b < |ids| ==> ids[a] != ids[b])
    && (forall id :: id in done ==> id in ids)
  }

  /** What RuleHandles' loop invariant gives once no id is left. */
  lemma HandlesDone(rules: map<string, Handle>, store: map<Handle, Rule>, done: set<string>,
                    ids: seq<string>, hs: seq<Handle>)
    requires forall id :: id in rules ==> rules[id] in store
    requires HandlesSoFar(rules, {}, done, ids, hs)
    ensures |hs| == |rules| && HandlesStored(store, hs)
    ensures forall id :: id in rules ==> rules[id] in hs
    ensures forall h :: h in hs ==> exists id :: id in rules && rules[id] == h
    ensures Enumerates(rules, ids) && |ids| == |hs|
    ensures forall k :: 0 <= k < |hs| ==> hs[k] == rules[ids[k]]
  {
    assert done == rules.Keys;
    forall id | id in rules ensures rules[id] in hs {
      var k :| 0 <= k < |ids| && ids[k] == id;
      assert hs[k] == rules[id];
    }
    forall h | h in hs ensures exists id :: id in rules && rules[id] == h {
      var k :| 0 <= k < |hs| && hs[k] == h;
      assert ids[k] in rules;
    }
  }

  /** `ids` lists every key of the id map exactly once. */
  ghost predicate Enumerates(rules: map<string, Handle>, ids: seq<string>)
  {
    && |ids| == |rules|
    && (forall k :: 0 <= k < |ids| ==> ids[k] in rules)
    && (forall id :: id in rules ==> id in ids)
    && (forall a, b :: 0 <= a < b < |ids| ==> ids[a] != ids[b])
  }

  lemma HandlesStep(rules: map<string, Handle>, left: set<string>, done: set<string>,
                    ids: seq<string>, hs: seq<Handle>, id: string)
    requires HandlesSoFar(rules, left, done, ids, hs) && id in left
    ensures HandlesSoFar(rules, left - {id}, done + {id}, ids + [id], hs + [rules[id]])
    ensures |left - {id}| < |left|
  {
    var ids', hs' := ids + [id], hs + [rules[id]];
    assert ids'[|ids|] == id && hs'[|hs|] == rules[id];
    forall k | 0 <= k < |ids'|
      ensures ids'[k] in done + {id} && hs'[k] == rules[ids'[k]]
    {
      if k < |ids| {
        assert ids'[k] == ids[k] && hs'[k] == hs[k];
      }
    }
    forall a, b | 0 <= a < b < |ids'|
      ensures ids'[a] != ids'[b]
    {
      assert ids'[a] == ids[a] && ids[a] in done;
      if b < |ids| {
        assert ids'[b] == ids[b];
      }
    }
    assert |done + {id}| == |done| + 1;
  }

  function Priority(store: map<Handle, Rule>, h: Handle): int
  {
    if h in store then store[h].priority else 0
  }

  /** Higher priorities first. */
  ghost predicate SortedDesc(store: map<Handle, Rule>, hs: seq<Handle>)
  {
    forall a, b :: 0 <= a < b < |hs| ==> Priority(store, hs[a]) >= Priority(store, hs[b])
  }

  /** `x` placed after every entry of priority at least its own. */
  function InsertDesc(store: map<Handle, Rule>, x: Handle, hs: seq<Handle>): (r: seq<Handle>)
    ensures multiset(r) == multiset(hs) + multiset{x}
    ensures |r| == |hs| + 1
  {
    if hs == [] then [x]
    else if Priority(store, hs[0]) >= Priority(store, x) then
      assert hs == [hs[0]] + hs[1..];
      [hs[0]] + InsertDesc(store, x, hs[1..])
    else [x] + hs
  }

  /** `sort.SliceStable` by descending priority: an insertion sort that
    * places each entry after the equal ones before it. */
  function StableSortDesc(store: map<Handle, Rule>, hs: seq<Handle>): (r: seq<Handle>)
    ensures multiset(r) == multiset(hs)
    ensures |r| == |hs|
  {
    if hs == [] then []
    else
      assert hs == hs[..|hs| - 1] + [hs[|hs| - 1]];
      InsertDesc(store, hs[|hs| - 1], StableSortDesc(store, hs[..|hs| - 1]))
  }

  lemma {:induction false} InsertDescSorted(store: map<Handle, Rule>, x: Handle, hs: seq<Handle>)
    requires SortedDesc(store, hs)
    ensures SortedDesc(store, InsertDesc(store, x, hs))
  {
    if hs != [] && Priority(store, hs[0]) >= Priority(store, x) {
      var tail := hs[1..];
      TailSorted(store, hs);
      InsertDescSorted(store, x, tail);
      InsertDescBound(store, x, tail, Priority(store, hs[0]));
      ConsSorted(store, hs[0], InsertDesc(store, x, tail));
    } else if hs != [] {
      TailSorted(store, hs);
      ConsSorted(store, x, hs);
    }
  }

  /** A sorted list without its head, and every entry no higher than the head. */
  lemma TailSorted(store: map<Handle, Rule>, hs: seq<Handle>)
    requires hs != [] && SortedDesc(store, hs)
    ensures SortedDesc(store, hs[1..])
    ensures forall k :: 0 <= k < |hs| ==> Priority(store, hs[k]) <= Priority(store, hs[0])
  {
    var tail := hs[1..];
    forall a, b | 0 <= a < b < |tail| ensures Priority(store, tail[a]) >= Priority(store, tail[b]) {
      assert tail[a] == hs[a + 1] && tail[b] == hs[b + 1];
    }
  }

  /** A head no lower than any entry of a sorted list keeps it sorted. */
  lemma ConsSorted(store: map<Handle, Rule>, h: Handle, rest: seq<Handle>)
    requires SortedDesc(store, rest)
    requires forall k :: 0 <= k < |rest| ==> Priority(store, rest[k]) <= Priority(store, h)
    ensures SortedDesc(store, [h] + rest)
  {
    var r := [h] + rest;
    forall a, b | 0 <= a < b < |r| ensures Priority(store, r[a]) >= Priority(store, r[b]) {
      assert r[b] == rest[b - 1];
      if a > 0 {
        assert r[a] == rest[a - 1];
      }
    }
  }

  /** Every entry of InsertDesc is bounded by a bound of `x` and of `hs`. */
  lemma InsertDescBound(store: map<Handle, Rule>, x: Handle, hs: seq<Handle>, bound: int)
    requires Priority(store, x) <= bound
    requires forall k :: 0 <= k < |hs| ==> Priority(store, hs[k]) <= bound
    ensures forall k :: 0 <= k < |InsertDesc(store, x, hs)| ==> Priority(store, InsertDesc(store, x, hs)[k]) <= bound
  {
    var r := InsertDesc(store, x, hs);
    forall k | 0 <= k < |r| ensures Priority(store, r[k]) <= bound {
      assert r[k] in multiset(hs) + multiset{x} by {
        assert r[k] in r;
      }
      if r[k] != x {
        assert r[k] in hs;
      }
    }
  }

  /** The stable sort leaves its input non-increasing by priority. */
  lemma {:induction false} StableSortSorted(store: map<Handle, Rule>, hs: seq<Handle>)
    ensures SortedDesc(store, StableSortDesc(store, hs))
  {
    if hs != [] {
      StableSortSorted(store, hs[..|hs| - 1]);
      InsertDescSorted(store, hs[|hs| - 1], StableSortDesc(store, hs[..|hs| - 1]));
    }
  }

  /** Inserting after the equal-or-higher prefix of a sorted list puts an
    * entry no higher than the last at the end. */
  lemma {:induction false} InsertDescAtEnd(store: map<Handle, Rule>, x: Handle, hs: seq<Handle>)
    requires forall k :: 0 <= k < |hs| ==> Priority(store, hs[k]) >= Priority(store, x)
    ensures InsertDesc(store, x, hs) == hs + [x]
  {
    if hs != [] {
      InsertDescAtEnd(store, x, hs[1..]);
      assert [hs[0]] + (hs[1..] + [x]) == hs + [x];
    }
  }

  /** Sorting an already sorted index changes nothing. */
  lemma {:induction false} StableSortOfSorted(store: map<Handle, Rule>, hs: seq<Handle>)
    requires SortedDesc(store, hs)
    ensures StableSortDesc(store, hs) == hs
  {
    if hs != [] {
      var init, last := hs[..|hs| - 1], hs[|hs| - 1];
      InitSorted(store, hs);
      StableSortOfSorted(store, init);
      InsertDescAtEnd(store, last, init);
      StableSortLast(store, hs);
    }
  }

  /** The stable sort of a non-empty list inserts its last entry into the sorted rest. */
  lemma StableSortLast(store: map<Handle, Rule>, hs: seq<Handle>)
    requires hs != []
    ensures hs == hs[..|hs| - 1] + [hs[|hs| - 1]]
    ensures StableSortDesc(store, hs) == InsertDesc(store, hs[|hs| - 1], StableSortDesc(store, hs[..|hs| - 1]))
  {
  }

  /** A sorted list without its last entry, and every entry no lower than the last. */
  lemma InitSorted(store: map<Handle, Rule>, hs: seq<Handle>)
    requires hs != [] && SortedDesc(store, hs)
    ensures SortedDesc(store, hs[..|hs| - 1])
    ensures forall k :: 0 <= k < |hs| - 1 ==> Priority(store, hs[k]) >= Priority(store, hs[|hs| - 1])
  {
    var init := hs[..|hs| - 1];
    forall a, b | 0 <= a < b < |init| ensures Priority(store, init[a]) >= Priority(store, init[b]) {
      assert init[a] == hs[a] && init[b] == hs[b];
    }
  }

  // ---- index slices ----

  /** The position of the first index entry whose rule has the id. */
  function IndexOfId(store: map<Handle, Rule>, hs: seq<Handle>, id: string): (r: Option<nat>)
    ensures r.Some? ==> r.value < |hs| && hs[r.value] in store && store[hs[r.value]].id == id
    ensures r.Some? ==> forall k :: 0 <= k < r.value ==> !(hs[k] in store && store[hs[k]].id == id)
    ensures r.None? ==> forall k :: 0 <= k < |hs| ==> !(hs[k] in store && store[hs[k]].id == id)
  {
    if hs == [] then None
    else if hs[0] in store && store[hs[0]].id == id then Some(0)
    else
      match IndexOfId(store, hs[1..], id)
      case None => None
      case Some(k) => Some(k + 1)
  }

  function Without(hs: seq<Handle>, i: nat): (r: seq<Handle>)
    requires i < |hs|
    ensures |r| == |hs| - 1
    ensures forall k :: 0 <= k < i ==> r[k] == hs[k]
    ensures forall k :: i <= k < |r| ==> r[k] == hs[k + 1]
  {
    hs[..i] + hs[i + 1..]
  }

  function Replace(hs: seq<Handle>, i: nat, h: Handle): (r: seq<Handle>)
    requires i < |hs|
    ensures |r| == |hs| && r[i] == h
    ensures forall k :: 0 <= k < |hs| && k != i ==> r[k] == hs[k]
  {
    hs[..i] + [h] + hs[i + 1..]
  }

  function IndexOf(index: map<string, seq<Handle>>, t: string): seq<Handle>
  {
    if t in index then index[t] else []
  }

  /** The index once the first entry with the id has left slice `t`; a
    * slice without one is not reassigned. */
  function RemoveFirst(index: map<string, seq<Handle>>, store: map<Handle, Rule>, t: string, id: string): map<string, seq<Handle>>
  {
    if t !in index then index
    else
      match IndexOfId(store, index[t], id)
      case None => index
      case Some(i) => index[t := Without(index[t], i)]
  }

  lemma WithoutKeepsSorted(store: map<Handle, Rule>, hs: seq<Handle>, i: nat)
    requires i < |hs| && SortedDesc(store, hs)
    ensures SortedDesc(store, Without(hs, i))
  {
    var r := Without(hs, i);
    forall a, b | 0 <= a < b < |r| ensures Priority(store, r[a]) >= Priority(store, r[b]) {
      var a' := if a < i then a else a + 1;
      var b' := if b < i then b else b + 1;
      assert r[a] == hs[a'] && r[b] == hs[b'];
    }
  }

  lemma IndexOfIdFirst(store: map<Handle, Rule>, hs: seq<Handle>, id: string, i: nat)
    requires i < |hs| && hs[i] in store && store[hs[i]].id == id
    requires forall k :: 0 <= k < i ==> !(hs[k] in store && store[hs[k]].id == id)
    ensures IndexOfId(store, hs, id) == Some(i)
  {
  }

  lemma IndexOfIdNone(store: map<Handle, Rule>, hs: seq<Handle>, id: string)
    requires forall k :: 0 <= k < |hs| ==> !(hs[k] in store && store[hs[k]].id == id)
    ensures IndexOfId(store, hs, id) == None
  {
  }

  /** Every entry of slice `t` names a stored rule of type `t`; an IP rule
    * has its network. */
  ghost predicate SliceOf(store: map<Handle, Rule>, hs: seq<Handle>, t: string)
  {
    forall k :: 0 <= k < |hs| ==>
      (hs[k] in store && store[hs[k]].ruleType == t && (t == IPRule ==> store[hs[k]].ipRange.Some?))
  }

  /** What both stores keep true: every id names a stored rule, every slice
    * holds stored rules of its own type, and handles below `next` are the
    * allocated ones. */
  ghost predicate StoreValid(rules: map<string, Handle>, index: map<string, seq<Handle>>, store: map<Handle, Rule>, next: Handle)
  {
    && (forall id :: id in rules ==> rules[id] in store)
    && (forall t :: t in index ==> SliceOf(store, index[t], t))
    && (forall h :: h in store ==> h < next)
  }

  /** Overwriting a stored rule by one of the same type and address range keeps the store valid. */
  lemma StoreValidRestore(rules: map<string, Handle>, index: map<string, seq<Handle>>, store: map<Handle, Rule>,
                          next: Handle, g: Handle, r: Rule)
    requires StoreValid(rules, index, store, next) && g in store
    requires store[g].ruleType == r.ruleType && store[g].ipRange == r.ipRange
    ensures StoreValid(rules, index, store[g := r], next)
  {
    forall t | t in index ensures SliceOf(store[g := r], index[t], t) {
      assert SliceOf(store, index[t], t);
    }
  }

  lemma SliceOfPerm(store: map<Handle, Rule>, s: seq<Handle>, s': seq<Handle>, t: string)
    requires multiset(s) == multiset(s') && SliceOf(store, s, t)
    ensures SliceOf(store, s', t)
  {
    forall k | 0 <= k < |s'| ensures s'[k] in store && store[s'[k]].ruleType == t && (t == IPRule ==> store[s'[k]].ipRange.Some?) {
      assert s'[k] in multiset(s);
      var m :| 0 <= m < |s| && s[m] == s'[k];
    }
  }

  /** The rules an index names, in index order. */
  function Deref(store: map<Handle, Rule>, hs: seq<Handle>): (r: seq<Rule>)
    requires HandlesStored(store, hs)
    ensures |r| == |hs| && forall k :: 0 <= k < |hs| ==> r[k] == store[hs[k]]
  {
    if hs == [] then [] else Deref(store, hs[..|hs| - 1]) + [store[hs[|hs| - 1]]]
  }

  /** The stored rules of a list of ids, one per id, in the list's order. */
  ghost function RulesOf(rules: map<string, Handle>, store: map<Handle, Rule>, ids: seq<string>): (r: seq<Rule>)
    requires forall k :: 0 <= k < |ids| ==> ids[k] in rules && rules[ids[k]] in store
    ensures |r| == |ids| && forall k :: 0 <= k < |ids| ==> r[k] == store[rules[ids[k]]]
  {
    if ids == [] then [] else RulesOf(rules, store, ids[..|ids| - 1]) + [store[rules[ids[|ids| - 1]]]]
  }

  /** The rules a list of handles names are those of the ids it was built from. */
  lemma DerefRulesOf(rules: map<string, Handle>, store: map<Handle, Rule>, ids: seq<string>, hs: seq<Handle>)
    requires |hs| == |ids| && forall k :: 0 <= k < |ids| ==> ids[k] in rules && rules[ids[k]] in store && hs[k] == rules[ids[k]]
    ensures HandlesStored(store, hs) && Deref(store, hs) == RulesOf(rules, store, ids)
  {
  }

  /** The rules named by the handles RuleHandles returns: one per id, in the order of `ids`. */
  lemma ListingOf(rules: map<string, Handle>, store: map<Handle, Rule>, ids: seq<string>, hs: seq<Handle>, r: seq<Rule>)
    requires forall id :: id in rules ==> rules[id] in store
    requires |hs| == |rules| && HandlesStored(store, hs)
    requires Enumerates(rules, ids) && |ids| == |hs|
    requires forall k :: 0 <= k < |hs| ==> hs[k] == rules[ids[k]]
    requires r == Deref(store, hs)
    ensures |r| == |rules|
    ensures forall id :: id in rules ==> store[rules[id]] in r
    ensures forall x :: x in r ==> exists id :: id in rules && store[rules[id]] == x
    ensures Enumerates(rules, ids)
    ensures r == RulesOf(rules, store, ids)
  {
    DerefRulesOf(rules, store, ids, hs);
    MembersCarry(rules, store, ids, r, r);
  }

  /** A list with the same elements as the rules of an enumeration of the ids names every stored rule, and only those. */
  lemma MembersCarry(rules: map<string, Handle>, store: map<Handle, Rule>, ids: seq<string>, listed: seq<Rule>, r: seq<Rule>)
    requires Enumerates(rules, ids) && forall id :: id in rules ==> rules[id] in store
    requires |listed| == |ids| && forall j :: 0 <= j < |ids| ==> listed[j] == store[rules[ids[j]]]
    requires forall x :: x in r <==> x in listed
    ensures forall id :: id in rules ==> store[rules[id]] in r
    ensures forall x :: x in r ==> exists id :: id in rules && store[rules[id]] == x
  {
    forall id | id in rules ensures store[rules[id]] in r {
      var j :| 0 <= j < |ids| && ids[j] == id;
      assert listed[j] == store[rules[id]];
    }
    forall x | x in r ensures exists id :: id in rules && store[rules[id]] == x {
      var j :| 0 <= j < |listed| && listed[j] == x;
      assert ids[j] in rules && store[rules[ids[j]]] == x;
    }
  }

  /** Reordering the handles reorders the rules they name. */
  lemma {:induction false} DerefPerm(store: map<Handle, Rule>, a: seq<Handle>, b: seq<Handle>)
    requires HandlesStored(store, a) && HandlesStored(store, b) && multiset(a) == multiset(b)
    ensures multiset(Deref(store, a)) == multiset(Deref(store, b))
  {
    if a == [] {
      assert |b| == |multiset(b)| == 0;
    } else {
      var a', x := a[..|a| - 1], a[|a| - 1];
      SnocParts(store, a);
      var u, v := SplitAt(store, b, x);
      MultisetCancel(multiset(a'), multiset(u + v), x);
      DerefPerm(store, a', u + v);
      DerefPermStep(store, a', u, v, x);
    }
  }

  /** A non-empty list is its prefix followed by its last handle. */
  lemma SnocParts(store: map<Handle, Rule>, a: seq<Handle>)
    requires HandlesStored(store, a) && a != []
    ensures a == a[..|a| - 1] + [a[|a| - 1]] && HandlesStored(store, a[..|a| - 1]) && a[|a| - 1] in store
    ensures multiset(a) == multiset(a[..|a| - 1]) + multiset{a[|a| - 1]}
  {
    assert a == a[..|a| - 1] + [a[|a| - 1]];
  }

  /** A list holding `x` splits around one occurrence of it. */
  lemma SplitAt(store: map<Handle, Rule>, b: seq<Handle>, x: Handle) returns (u: seq<Handle>, v: seq<Handle>)
    requires HandlesStored(store, b) && x in multiset(b)
    ensures b == u + [x] + v && x in store
    ensures HandlesStored(store, u) && HandlesStored(store, v) && HandlesStored(store, u + v)
    ensures multiset(b) == multiset(u + v) + multiset{x}
  {
    assert x in b;
    var i :| 0 <= i < |b| && b[i] == x;
    u, v := b[..i], b[i + 1..];
    assert b == u + [x] + v;
    DerefAppendStored(store, u, v);
  }

  /** One step of DerefPerm: the same handle appended on one side and inserted on the other. */
  lemma DerefPermStep(store: map<Handle, Rule>, a: seq<Handle>, u: seq<Handle>, v: seq<Handle>, x: Handle)
    requires HandlesStored(store, a) && HandlesStored(store, u) && HandlesStored(store, v) && x in store
    requires HandlesStored(store, u + v) && multiset(Deref(store, a)) == multiset(Deref(store, u + v))
    ensures HandlesStored(store, a + [x]) && HandlesStored(store, u + [x] + v)
    ensures multiset(Deref(store, a + [x])) == multiset(Deref(store, u + [x] + v))
  {
    DerefSnoc(store, a, x);
    DerefInsert(store, u, v, x);
  }

  /** Appending a handle appends its rule. */
  lemma DerefSnoc(store: map<Handle, Rule>, a: seq<Handle>, x: Handle)
    requires HandlesStored(store, a) && x in store
    ensures HandlesStored(store, a + [x])
    ensures multiset(Deref(store, a + [x])) == multiset(Deref(store, a)) + multiset{store[x]}
  {
    assert (a + [x])[..|a|] == a;
  }

  lemma DerefAppendStored(store: map<Handle, Rule>, u: seq<Handle>, v: seq<Handle>)
    requires HandlesStored(store, u) && HandlesStored(store, v)
    ensures HandlesStored(store, u + v)
  {
    assert forall k :: 0 <= k < |u + v| ==> (u + v)[k] == if k < |u| then u[k] else v[k - |u|];
  }

  /** Inserting a handle anywhere adds its rule to the multiset of rules. */
  lemma DerefInsert(store: map<Handle, Rule>, u: seq<Handle>, v: seq<Handle>, x: Handle)
    requires HandlesStored(store, u) && HandlesStored(store, v) && x in store
    ensures HandlesStored(store, u + [x] + v) && HandlesStored(store, u + v)
    ensures multiset(Deref(store, u + [x] + v)) == multiset(Deref(store, u + v)) + multiset{store[x]}
  {
    assert Deref(store, [x]) == [store[x]];
    DerefAppend(store, u, [x]);
    DerefAppend(store, u + [x], v);
    DerefAppend(store, u, v);
  }

  lemma DerefAppend(store: map<Handle, Rule>, u: seq<Handle>, v: seq<Handle>)
    requires HandlesStored(store, u) && HandlesStored(store, v)
    ensures HandlesStored(store, u + v) && Deref(store, u + v) == Deref(store, u) + Deref(store, v)
  {
    assert forall k :: 0 <= k < |u + v| ==> (u + v)[k] == if k < |u| then u[k] else v[k - |u|];
  }

  lemma MultisetCancel(ma: multiset<Handle>, mb: multiset<Handle>, x: Handle)
    requires ma + multiset{x} == mb + multiset{x}
    ensures ma == mb
  {
    forall y ensures ma[y] == mb[y] {
      assert (ma + multiset{x})[y] == ma[y] + multiset{x}[y];
      assert (mb + multiset{x})[y] == mb[y] + multiset{x}[y];
    }
  }

}
