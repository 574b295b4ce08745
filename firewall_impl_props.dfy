// Properties of firewall_impl.go: which rules a verdict can name, when it
// asks the caller to wait, which slices call the rate limiter, and what
// the id map and the type index keep in common across updates.
module BasicFirewallProps {
  import opened Wrappers
  import opened StrUtil
  import opened FirewallTypes
  import opened BasicFirewall

  /** A slice verdict names an enabled rule of the slice that matches the request. */
  ghost predicate FromSlice(hs: seq<Handle>, store: map<Handle, Rule>, req: Request, net: NetLib, v: Option<Evaluation>)
  {
    v.Some? ==> exists k :: (0 <= k < |hs| && hs[k] in store && store[hs[k]].isEnabled
                             && v.value == Matched(store[hs[k]])
                             && (store[hs[k]].ruleType != RateRule ==> Matches(store[hs[k]], req, net)))
  }

  lemma {:induction false} ScanFromRule(hs: seq<Handle>, store: map<Handle, Rule>, req: Request, net: NetLib, lim: RateOracle, n: nat)
    ensures Scan(hs, store, req, net, lim, n).calls >= n
    ensures FromSlice(hs, store, req, net, Scan(hs, store, req, net, lim, n).verdict)
    decreases |hs|
  {
    if hs != [] {
      var m := if hs[0] in store && store[hs[0]].isEnabled && store[hs[0]].ruleType == RateRule then n + 1 else n;
      ScanFromRule(hs[1..], store, req, net, lim, m);
      var v := Scan(hs[1..], store, req, net, lim, m).verdict;
      if Scan(hs, store, req, net, lim, n).verdict == v && v.Some? {
        var k :| 0 <= k < |hs[1..]| && hs[1..][k] in store && store[hs[1..][k]].isEnabled
          && v.value == Matched(store[hs[1..][k]])
          && (store[hs[1..][k]].ruleType != RateRule ==> Matches(store[hs[1..][k]], req, net));
        assert hs[k + 1] == hs[1..][k];
      }
    }
  }

  /** The verdict is the result of an enabled rule some slice holds, or the
    * default allow when none matched. */
  lemma MatchedRuleIsEnabled(index: map<string, seq<Handle>>, store: map<Handle, Rule>, req: Request, net: NetLib, lim: RateOracle)
    ensures var e := Verdict(index, store, req, net, lim);
      && (e.matchedRule.None? ==> e == NoMatch)
      && (e.matchedRule.Some? ==> exists t, k :: (t in index && 0 <= k < |index[t]| && index[t][k] in store
                                                    && store[index[t][k]].isEnabled && e == Matched(store[index[t][k]])))
  {
    var ip := Scan(IndexOf(index, IPRule), store, req, net, lim, 0);
    var geo := Scan(IndexOf(index, GeoRule), store, req, net, lim, ip.calls);
    var url := Scan(IndexOf(index, URLRule), store, req, net, lim, geo.calls);
    var header := Scan(IndexOf(index, HeaderRule), store, req, net, lim, url.calls);
    var content := Scan(IndexOf(index, ContentRule), store, req, net, lim, header.calls);
    ScanFromRule(IndexOf(index, IPRule), store, req, net, lim, 0);
    ScanFromRule(IndexOf(index, GeoRule), store, req, net, lim, ip.calls);
    ScanFromRule(IndexOf(index, URLRule), store, req, net, lim, geo.calls);
    ScanFromRule(IndexOf(index, HeaderRule), store, req, net, lim, url.calls);
    ScanFromRule(IndexOf(index, ContentRule), store, req, net, lim, header.calls);
    ScanFromRule(IndexOf(index, RateRule), store, req, net, lim, content.calls);
  }

  /** Only a rate rule whose action is to rate limit makes the caller wait,
    * and then for that rule's period. */
  lemma ThrottleOnlyForRate(index: map<string, seq<Handle>>, store: map<Handle, Rule>, req: Request, net: NetLib, lim: RateOracle)
    ensures var e := Verdict(index, store, req, net, lim);
      e.throttleFor != 0 ==>
        && e.matchedRule.Some? && e.matchedRule.value.ruleType == RateRule
        && e.matchedRule.value.action == ActionRate && e.throttleFor == e.matchedRule.value.ratePeriod
  {
    MatchedRuleIsEnabled(index, store, req, net, lim);
  }

  /** A slice without rate rules never calls the limiter. */
  lemma {:induction false} NoRateNoCalls(hs: seq<Handle>, store: map<Handle, Rule>, req: Request, net: NetLib, lim: RateOracle,
                                         t: string, n: nat)
    requires SliceOf(store, hs, t) && t != RateRule
    ensures Scan(hs, store, req, net, lim, n).calls == n
    decreases |hs|
  {
    if hs != [] {
      assert SliceOf(store, hs[1..], t) by {
        forall k | 0 <= k < |hs[1..]| ensures hs[1..][k] in store && store[hs[1..][k]].ruleType == t {
          assert hs[1..][k] == hs[k + 1];
        }
      }
      NoRateNoCalls(hs[1..], store, req, net, lim, t, n);
    }
  }

  /** In a valid store the rate rules are asked from the first limiter call
    * on: the call numbers count rate rules alone. */
  lemma RateScanStartsAtZero(rules: map<string, Handle>, index: map<string, seq<Handle>>, store: map<Handle, Rule>, next: Handle,
                             req: Request, net: NetLib, lim: RateOracle)
    requires StoreValid(rules, index, store, next)
    ensures var ip := Scan(IndexOf(index, IPRule), store, req, net, lim, 0);
      var geo := Scan(IndexOf(index, GeoRule), store, req, net, lim, ip.calls);
      var url := Scan(IndexOf(index, URLRule), store, req, net, lim, geo.calls);
      var header := Scan(IndexOf(index, HeaderRule), store, req, net, lim, url.calls);
      Scan(IndexOf(index, ContentRule), store, req, net, lim, header.calls).calls == 0
  {
    forall t | t != RateRule ensures SliceOf(store, IndexOf(index, t), t) {
    }
    NoRateNoCalls(IndexOf(index, IPRule), store, req, net, lim, IPRule, 0);
    NoRateNoCalls(IndexOf(index, GeoRule), store, req, net, lim, GeoRule, 0);
    NoRateNoCalls(IndexOf(index, URLRule), store, req, net, lim, URLRule, 0);
    NoRateNoCalls(IndexOf(index, HeaderRule), store, req, net, lim, HeaderRule, 0);
    NoRateNoCalls(IndexOf(index, ContentRule), store, req, net, lim, ContentRule, 0);
  }

  /** While the maps agree, every rule a verdict names is the one stored
    * under its id now. */
  lemma MatchedIsCurrent(rules: map<string, Handle>, index: map<string, seq<Handle>>, store: map<Handle, Rule>,
                         req: Request, net: NetLib, lim: RateOracle)
    requires Consistent(rules, index, store)
    ensures var e := Verdict(index, store, req, net, lim);
      e.matchedRule.Some? ==> (e.matchedRule.value.id in rules && store[rules[e.matchedRule.value.id]] == e.matchedRule.value)
  {
    MatchedRuleIsEnabled(index, store, req, net, lim);
    var e := Verdict(index, store, req, net, lim);
    if e.matchedRule.Some? {
      var t, k :| t in index && 0 <= k < |index[t]| && index[t][k] in store
        && store[index[t][k]].isEnabled && e == Matched(store[index[t][k]]);
      assert Current(rules, store, index[t][k]);
    }
  }

  /** While the maps agree, a removed rule is never matched again. */
  lemma RemovedRuleNeverMatches(rules: map<string, Handle>, index: map<string, seq<Handle>>, store: map<Handle, Rule>,
                                id: string, req: Request, net: NetLib, lim: RateOracle)
    requires Consistent(rules, index, store) && id in rules
    ensures var e := Verdict(RemoveFirst(index, store, store[rules[id]].ruleType, id), store, req, net, lim);
      e.matchedRule.Some? ==> e.matchedRule.value.id != id
  {
    ConsistentRemove(rules, index, store, id);
    MatchedIsCurrent(rules - {id}, RemoveFirst(index, store, store[rules[id]].ruleType, id), store, req, net, lim);
  }
}

// The index the as-written UpdateRule leaves behind, against the agreement
// the other operations keep.
module BasicFirewallFindings {
  import opened Wrappers
  import opened FirewallTypes
  import opened BasicFirewall

  /** A priority-only update appends the new rule beside the old one, so a
    * later RemoveRule takes out one of the two and the other, carrying the
    * removed id, stays in the slice that evaluation scans. */
  lemma PriorityUpdateLeavesStaleEntry(rules: map<string, Handle>, index: map<string, seq<Handle>>, store: map<Handle, Rule>,
                                       h: Handle, p: Rule, index': map<string, seq<Handle>>)
    requires Consistent(rules, index, store) && p.id in rules && store[rules[p.id]].ruleType == p.ruleType && h !in store
    requires AppendedSorted(index, index', store[h := p], p.ruleType, h)
    ensures !Consistent(rules[p.id := h], index', store[h := p])
    ensures var store' := store[h := p]; var index'' := RemoveFirst(index', store', p.ruleType, p.id);
      p.ruleType in index'' && p.id !in rules[p.id := h] - {p.id}
      && exists k :: 0 <= k < |index''[p.ruleType]| && index''[p.ruleType][k] in store'
           && store'[index''[p.ruleType][k]].id == p.id
  {
    var t := p.ruleType;
    var h0 := rules[p.id];
    var store' := store[h := p];
    var hs := index'[t];
    assert h0 in multiset(index[t]);
    assert multiset(hs) == multiset(index[t]) + multiset{h};
    assert h0 in multiset(hs) && h in multiset(hs) && h0 != h;
    var j :| 0 <= j < |hs| && hs[j] == h0;
    if Consistent(rules[p.id := h], index', store') {
      assert false;
    }
    var found := IndexOfId(store', hs, p.id);
    assert store'[hs[j]].id == p.id;
    assert found.Some?;
    var i := found.value;
    var rest := Without(hs, i);
    WithoutMultiset(hs, i);
    var survivor := if hs[i] == h0 then h else h0;
    assert survivor in multiset(rest);
    var k :| 0 <= k < |rest| && rest[k] == survivor;
    assert RemoveFirst(index', store', t, p.id)[t] == rest;
  }

  /** An update that keeps type and priority leaves the index on the old
    * rule: the new rule, which the id now names, is not in any slice, so
    * its pattern is never consulted and disabling it has no effect on
    * evaluation. */
  lemma SameKeyUpdateKeepsOldRule(rules: map<string, Handle>, index: map<string, seq<Handle>>, store: map<Handle, Rule>,
                                  h: Handle, p: Rule)
    requires Consistent(rules, index, store) && p.id in rules && store[rules[p.id]].ruleType == p.ruleType && h !in store
    ensures var t := p.ruleType; t in index && rules[p.id] in index[t] && h !in index[t]
    ensures !Consistent(rules[p.id := h], index, store[h := p])
  {
    var t := p.ruleType;
    var h0 := rules[p.id];
    var j :| 0 <= j < |index[t]| && index[t][j] == h0;
    if Consistent(rules[p.id := h], index, store[h := p]) {
      assert false;
    }
  }
}
