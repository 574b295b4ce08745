// Properties of firewall.go's evaluation: which rules a verdict can name,
// the order rules are consulted in, the limiter and country comparison.
module RuleFirewallProps {
  import opened Wrappers
  import opened StrUtil
  import opened Seqs
  import opened FirewallTypes
  import opened RuleFirewall

  /** The rule is stored under some entry of the index. */
  ghost predicate Indexed(index: map<string, seq<Handle>>, store: map<Handle, Rule>, rule: Rule)
  {
    exists t, k :: t in index && 0 <= k < |index[t]| && index[t][k] in store && store[index[t][k]] == rule
  }

  /** A verdict of one rule type names an enabled rule of that type's slice. */
  ghost predicate FromEnabledRule(index: map<string, seq<Handle>>, store: map<Handle, Rule>, v: Option<Evaluation>)
  {
    v.Some? ==> (v.value.matchedRule.Some? && v.value.matchedRule.value.isEnabled
      && Indexed(index, store, v.value.matchedRule.value))
  }

  lemma IndexedAt(index: map<string, seq<Handle>>, store: map<Handle, Rule>, t: string, k: nat)
    requires t in index && k < |index[t]| && index[t][k] in store
    ensures Indexed(index, store, store[index[t][k]])
  {
  }

  lemma IPFromRule(index: map<string, seq<Handle>>, store: map<Handle, Rule>, req: Request, net: NetLib)
    ensures FromEnabledRule(index, store, IPVerdict(index, store, req, net))
  {
    var hs := IndexOf(index, IPRule);
    var f := IPItemF(store, req, net);
    if IPVerdict(index, store, req, net).Some? {
      FirstSomeSpec(hs, f);
      var i :| 0 <= i < |hs| && f(hs[i]) == FirstSome(hs, f) && forall j :: 0 <= j < i ==> f(hs[j]).None?;
      assert IPItem(store, req, net, hs[i]).Some?;
      IndexedAt(index, store, IPRule, i);
    }
  }

  lemma URLFromRule(index: map<string, seq<Handle>>, store: map<Handle, Rule>, req: Request, re: RegexLib)
    ensures FromEnabledRule(index, store, URLVerdict(index, store, req, re))
  {
    var hs := IndexOf(index, URLRule);
    var f := URLItemF(store, req, re);
    if URLVerdict(index, store, req, re).Some? {
      FirstSomeSpec(hs, f);
      var i :| 0 <= i < |hs| && f(hs[i]) == FirstSome(hs, f) && forall j :: 0 <= j < i ==> f(hs[j]).None?;
      assert URLItem(store, req, re, hs[i]).Some?;
      IndexedAt(index, store, URLRule, i);
    }
  }

  lemma HeaderFromRule(index: map<string, seq<Handle>>, store: map<Handle, Rule>, req: Request, re: RegexLib)
    ensures FromEnabledRule(index, store, HeaderVerdict(index, store, req, re))
  {
    var hs := IndexOf(index, HeaderRule);
    var f := HeaderItemF(store, req, re);
    if HeaderVerdict(index, store, req, re).Some? {
      FirstSomeSpec(hs, f);
      var i :| 0 <= i < |hs| && f(hs[i]) == FirstSome(hs, f) && forall j :: 0 <= j < i ==> f(hs[j]).None?;
      assert HeaderItem(store, req, re, hs[i]).Some?;
      IndexedAt(index, store, HeaderRule, i);
    }
  }

  lemma GeoFromRule(index: map<string, seq<Handle>>, store: map<Handle, Rule>, req: Request)
    ensures FromEnabledRule(index, store, GeoVerdict(index, store, req))
  {
    var hs := IndexOf(index, GeoRule);
    var f := GeoItemF(store, req);
    if GeoVerdict(index, store, req).Some? {
      FirstSomeSpec(hs, f);
      var i :| 0 <= i < |hs| && f(hs[i]) == FirstSome(hs, f) && forall j :: 0 <= j < i ==> f(hs[j]).None?;
      assert GeoItem(store, req, hs[i]).Some?;
      IndexedAt(index, store, GeoRule, i);
    }
  }

  lemma ContentFromRule(index: map<string, seq<Handle>>, store: map<Handle, Rule>, req: Request, re: RegexLib)
    ensures FromEnabledRule(index, store, ContentVerdict(index, store, req, re))
  {
    var hs := IndexOf(index, ContentRule);
    var f := ContentItemF(store, req, re);
    if ContentVerdict(index, store, req, re).Some? {
      FirstSomeSpec(hs, f);
      var i :| 0 <= i < |hs| && f(hs[i]) == FirstSome(hs, f) && forall j :: 0 <= j < i ==> f(hs[j]).None?;
      assert ContentItem(store, req, re, hs[i]).Some?;
      IndexedAt(index, store, ContentRule, i);
    }
  }

  /** A rate verdict comes from an enabled rule of the scanned slice that
    * the limiter refused. */
  lemma {:induction false} RateScanFromRule(hs: seq<Handle>, store: map<Handle, Rule>, req: Request, lim: RateOracle, n: nat)
    ensures RateScan(hs, store, req, lim, n).Some? ==>
      var v := RateScan(hs, store, req, lim, n).value;
      && v.logLevel == "WARN"
      && exists k :: 0 <= k < |hs| && hs[k] in store && store[hs[k]].isEnabled && v.matchedRule == Some(store[hs[k]])
    decreases |hs|
  {
    if hs != [] {
      RateScanFromRule(hs[1..], store, req, lim, n);
      RateScanFromRule(hs[1..], store, req, lim, n + 1);
      if RateScan(hs, store, req, lim, n).Some? {
        var v := RateScan(hs, store, req, lim, n).value;
        if hs[0] in store && store[hs[0]].isEnabled && v.matchedRule == Some(store[hs[0]]) {
        } else {
          var m := if hs[0] !in store || !store[hs[0]].isEnabled || RateKey(store[hs[0]], req) == [] then n else n + 1;
          assert RateScan(hs, store, req, lim, n) == RateScan(hs[1..], store, req, lim, m);
          var k :| 0 <= k < |hs[1..]| && hs[1..][k] in store && store[hs[1..][k]].isEnabled && v.matchedRule == Some(store[hs[1..][k]]);
          assert hs[k + 1] == hs[1..][k];
        }
      }
    }
  }

  lemma RateFromRule(index: map<string, seq<Handle>>, store: map<Handle, Rule>, req: Request, lim: RateOracle)
    ensures FromEnabledRule(index, store, RateVerdict(index, store, req, lim))
  {
    var hs := IndexOf(index, RateRule);
    if RateVerdict(index, store, req, lim).Some? {
      RateScanFromRule(hs, store, req, lim, 0);
      var k :| 0 <= k < |hs| && hs[k] in store && store[hs[k]].isEnabled
        && RateVerdict(index, store, req, lim).value.matchedRule == Some(store[hs[k]]);
      IndexedAt(index, store, RateRule, k);
    }
  }

  /** A verdict that names a rule names an enabled rule of the index; one
    * that names none allows the request. */
  lemma MatchedRuleIsEnabled(index: map<string, seq<Handle>>, store: map<Handle, Rule>, request: Option<Request>,
                             net: NetLib, re: RegexLib, lim: RateOracle)
    ensures var v := Verdict(index, store, request, net, re, lim);
      && (v.matchedRule.Some? ==> v.matchedRule.value.isEnabled && Indexed(index, store, v.matchedRule.value))
      && (v.matchedRule.None? ==> v.action == ActionAllow)
  {
    if request.Some? {
      var req := request.value;
      IPFromRule(index, store, req, net);
      URLFromRule(index, store, req, re);
      HeaderFromRule(index, store, req, re);
      RateFromRule(index, store, req, lim);
      GeoFromRule(index, store, req);
      ContentFromRule(index, store, req, re);
    }
  }

  /** IP rules are consulted first, in index order: the first enabled IP
    * rule whose network holds the address decides the request. */
  lemma IPFirstMatchWins(index: map<string, seq<Handle>>, store: map<Handle, Rule>, req: Request,
                         net: NetLib, re: RegexLib, lim: RateOracle, i: nat)
    requires i < |IndexOf(index, IPRule)|
    requires IPItem(store, req, net, IndexOf(index, IPRule)[i]).Some?
    requires forall j :: 0 <= j < i ==> IPItem(store, req, net, IndexOf(index, IPRule)[j]).None?
    ensures Verdict(index, store, Some(req), net, re, lim) == IPItem(store, req, net, IndexOf(index, IPRule)[i]).value
  {
    var hs := IndexOf(index, IPRule);
    var f := IPItemF(store, req, net);
    FirstSomeWhole(hs, f);
    FirstUnmatchedPrefix(hs, f, i);
    FirstSomeStep(hs, i, f);
  }

  /** Skipping a prefix whose elements all have no image keeps FirstSome. */
  lemma {:induction false} FirstUnmatchedPrefix<A, B>(s: seq<A>, f: A -> Option<B>, i: nat)
    requires i <= |s|
    requires forall j :: 0 <= j < i ==> f(s[j]).None?
    ensures FirstSome(s[i..], f) == FirstSome(s, f)
  {
    FirstSomeWhole(s, f);
    if i > 0 {
      FirstUnmatchedPrefix(s, f, i - 1);
      FirstSomeStep(s, i - 1, f);
    }
  }

  /** A limiter that allows every call never throttles. */
  lemma {:induction false} AllowedNeverThrottled(hs: seq<Handle>, store: map<Handle, Rule>, req: Request, lim: RateOracle, n: nat)
    requires forall m, key, limit, period :: lim.allow(m, key, limit, period)
    ensures RateScan(hs, store, req, lim, n).None?
    decreases |hs|
  {
    if hs != [] {
      AllowedNeverThrottled(hs[1..], store, req, lim, n);
      AllowedNeverThrottled(hs[1..], store, req, lim, n + 1);
    }
  }

  /** The geo check ignores ASCII case: countries equal without regard to
    * case match the same rules. */
  lemma GeoIgnoresCase(store: map<Handle, Rule>, req: Request, country: string, h: Handle)
    requires EqualFold(req.country, country)
    ensures GeoItem(store, req, h).Some? <==> GeoItem(store, req.(country := country), h).Some?
  {
    if h in store {
      var cs := store[h].countries;
      if exists c :: c in cs && EqualFold(c, req.country) {
        var c :| c in cs && EqualFold(c, req.country);
        assert EqualFold(c, country);
      }
      if exists c :: c in cs && EqualFold(c, country) {
        var c :| c in cs && EqualFold(c, country);
        assert EqualFold(c, req.country);
      }
    }
  }
}

// What UpdateRule as written leaves behind, on rules of any content: the
// id map and index it produces are RulesAfterUpdate and IndexAfterUpdate.
module RuleFirewallScenarios {
  import opened Wrappers
  import opened FirewallTypes
  import opened RuleFirewall

  lemma SortOne(store: map<Handle, Rule>, h: Handle)
    ensures StableSortDesc(store, [h]) == [h]
  {
    assert [h][..0] == [];
  }

  /** Two rules added in turn, the second of higher priority, end up
    * second-first in their slice. */
  lemma AddTwo(store: map<Handle, Rule>)
    requires Priority(store, 0) < Priority(store, 1)
    ensures StableSortDesc(store, StableSortDesc(store, [0]) + [1]) == [1, 0]
  {
    SortOne(store, 0);
    assert [0 as Handle] + [1 as Handle] == [0, 1];
    assert [0, 1][..1] == [0];
  }

  /** The id map, index and store of the rule firewall at one moment. */
  datatype Snapshot = Snapshot(rules: map<string, Handle>, index: map<string, seq<Handle>>, store: map<Handle, Rule>)

  /** The state after UpdateRule stores `p` under the fresh handle `h`. */
  function Updated(s: Snapshot, p: Rule, h: Handle): Snapshot
    requires p.id in s.rules && s.rules[p.id] in s.store
  {
    var store' := s.store[h := p];
    var existing := s.store[s.rules[p.id]];
    Snapshot(RulesAfterUpdate(s.rules, existing, p, h), IndexAfterUpdate(s.index, store', existing, p, h), store')
  }

  /** Rule `x` added under handle 0, then rule `y` under handle 1. */
  function TwoRules(x: Rule, y: Rule): Snapshot
  {
    var store := map[0 := x, 1 := y];
    Snapshot(map[x.id := 0, y.id := 1], map[x.ruleType := StableSortDesc(store, StableSortDesc(store, [0]) + [1])], store)
  }

  /** Rule `x` below rule `y` in one slice; `x` is updated to a priority
    * above `y`'s, then updated again with that same priority. The first
    * update keeps the old `x` in the slice, the second puts the new `x` in
    * its place, and the slice is left out of priority order. */
  lemma PriorityUpdateUnsortsIndex(x: Rule, y: Rule, p: int)
    requires x.id != y.id && x.ruleType == y.ruleType && x.priority < y.priority < p
    ensures var s1 := Updated(TwoRules(x, y), x.(priority := p), 2);
      && x.id in s1.rules && s1.rules[x.id] == 2 && 2 in s1.store
      && s1.index == map[x.ruleType := [1, 0]]
    ensures var s2 := Updated(Updated(TwoRules(x, y), x.(priority := p), 2), x.(priority := p), 3);
      && s2.index == map[x.ruleType := [1, 3]]
      && !SortedDesc(s2.store, s2.index[x.ruleType])
  {
    var x' := x.(priority := p);
    var s1 := FirstPriorityUpdate(x, y, x');
    SecondPriorityUpdate(s1, x.id, x');
  }

  /** The first update: the slice is already in order, so it stays [1, 0]. */
  lemma FirstPriorityUpdate(x: Rule, y: Rule, x': Rule) returns (s1: Snapshot)
    requires x.id != y.id && x.ruleType == y.ruleType && x.priority < y.priority < x'.priority
    requires x'.id == x.id && x'.ruleType == x.ruleType
    ensures s1 == Updated(TwoRules(x, y), x', 2)
    ensures s1.rules[x.id] == 2 && s1.store == map[0 := x, 1 := y, 2 := x']
    ensures s1.index == map[x.ruleType := [1, 0]]
  {
    var s0 := TwoRules(x, y);
    AddTwo(s0.store);
    assert s0.index == map[x.ruleType := [1, 0]];
    s1 := Updated(s0, x', 2);
    FirstUpdateSorts(s0.index, s1.store, x.ruleType);
  }

  /** The second update, with the same priority: handle 0 makes way for 3. */
  lemma SecondPriorityUpdate(s1: Snapshot, id: string, x': Rule)
    requires id in s1.rules && s1.rules[id] == 2 && x'.id == id
    requires 0 in s1.store && 1 in s1.store && 2 in s1.store && s1.store[2] == x'
    requires s1.store[0].id == id && s1.store[1].id != id && s1.store[1].priority < x'.priority
    requires s1.index == map[x'.ruleType := [1, 0]]
    ensures Updated(s1, x', 3).index == map[x'.ruleType := [1, 3]]
    ensures !SortedDesc(Updated(s1, x', 3).store, Updated(s1, x', 3).index[x'.ruleType])
  {
    var s2 := Updated(s1, x', 3);
    SecondUpdateReplaces(x'.ruleType, s2.store, id);
    assert Priority(s2.store, 1) < Priority(s2.store, 3);
  }

  /** Sorting a slice already in priority order leaves the index as it is. */
  lemma FirstUpdateSorts(index: map<string, seq<Handle>>, store: map<Handle, Rule>, t: string)
    requires t in index && SortedDesc(store, index[t])
    ensures SortSlice(index, store, t) == index
  {
    StableSortOfSorted(store, index[t]);
  }

  /** With an id held by the rule at handle 0 only, the same-priority update
    * replaces handle 0 by handle 3 in the slice [1, 0]. */
  lemma SecondUpdateReplaces(t: string, store: map<Handle, Rule>, id: string)
    requires 0 in store && 1 in store && store[0].id == id && store[1].id != id
    ensures ReplaceFirst(map[t := [1, 0]], store, t, id, 3) == map[t := [1, 3]]
  {
    assert IndexOfId(store, [1, 0], id) == Some(1);
    assert Replace([1, 0], 1, 3) == [1, 3];
  }

  /** After a type change the id still names the old rule, so GetRule
    * reports the old type. */
  lemma TypeUpdateKeepsOldRule(rules: map<string, Handle>, store: map<Handle, Rule>, existing: Rule, p: Rule, h: Handle)
    requires p.id in rules && rules[p.id] in store && store[rules[p.id]] == existing
    requires h !in store && existing.ruleType != p.ruleType
    ensures var rules' := RulesAfterUpdate(rules, existing, p, h);
      p.id in rules' && store[h := p][rules'[p.id]] == existing && existing != p
  {
  }
}
