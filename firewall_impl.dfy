// The rule store of internal/security/firewall/firewall_impl.go: the same
// id map and per-type index as the other store, with its own defaults, an
// in-place exchange sort for the index, and evaluation by prefix and exact
// comparisons in the order IP, geo, URL, header, content, rate.
module BasicFirewall {
  import opened Wrappers
  import opened StrUtil
  import opened Seqs
  import opened FirewallTypes

  /** `prepareRule`: enabled, direction inbound and priority 100 unless
    * given, then validated by type without a regular expression check. */
  function PrepareRule(net: NetLib, rule: Rule): (r: Result<Rule, FirewallError>)
    ensures r.Ok? ==> r.value.isEnabled && r.value.direction != [] && r.value.priority != 0
    ensures r.Ok? ==> r.value.id == rule.id && r.value.ruleType == rule.ruleType
    ensures r.Ok? ==> r.value.priority == (if rule.priority == 0 then 100 else rule.priority)
    ensures r.Ok? ==> r.value.direction == (if rule.direction == [] then Inbound else rule.direction)
    ensures r.Ok? && rule.ruleType == IPRule ==> r.value.ipRange.Some?
    ensures rule.ruleType in {URLRule, HeaderRule, ContentRule} ==> (r.Ok? <==> rule.pattern != [])
  {
    var filled := rule.(isEnabled := true,
                        direction := if rule.direction == [] then Inbound else rule.direction,
                        priority := if rule.priority == 0 then 100 else rule.priority);
    ValidateByType(net, filled, None)
  }

  // ---- sortRulesByPriority ----

  /** No entry of `s` has a priority above `b`. */
  ghost predicate AtMost(store: map<Handle, Rule>, s: seq<Handle>, b: int)
  {
    forall k :: 0 <= k < |s| ==> Priority(store, s[k]) <= b
  }

  lemma AtMostPerm(store: map<Handle, Rule>, s: seq<Handle>, t: seq<Handle>, b: int)
    requires multiset(s) == multiset(t) && AtMost(store, s, b)
    ensures AtMost(store, t, b)
  {
    forall k | 0 <= k < |t| ensures Priority(store, t[k]) <= b {
      assert t[k] in multiset(s);
      var m :| 0 <= m < |s| && s[m] == t[k];
    }
  }

  /** One pass of the outer loop: swapping `a[i]` with every later entry of
    * higher priority leaves the highest of `a[i..]` at `a[i]`. */
  method PlaceMax(a: array<Handle>, store: map<Handle, Rule>, i: nat)
    requires i < a.Length
    modifies a
    ensures forall k :: 0 <= k < i ==> a[k] == old(a[k])
    ensures multiset(a[..]) == multiset(old(a[..]))
    ensures forall m :: i < m < a.Length ==> Priority(store, a[m]) <= Priority(store, a[i])
  {
    var j := i + 1;
    while j < a.Length
      invariant i + 1 <= j <= a.Length
      invariant forall k :: 0 <= k < i ==> a[k] == old(a[k])
      invariant multiset(a[..]) == multiset(old(a[..]))
      invariant forall m :: i < m < j ==> Priority(store, a[m]) <= Priority(store, a[i])
    {
      if Priority(store, a[i]) < Priority(store, a[j]) {
        a[i], a[j] := a[j], a[i];
      }
      j := j + 1;
    }
  }

  /** The suffix from `i` keeps its entries when the prefix before `i` and the
    * whole do. */
  lemma SuffixPerm(before: seq<Handle>, after: seq<Handle>, i: nat)
    requires i <= |before| == |after|
    requires before[..i] == after[..i] && multiset(before) == multiset(after)
    ensures multiset(before[i..]) == multiset(after[i..])
  {
    assert before == before[..i] + before[i..];
    assert after == after[..i] + after[i..];
    assert multiset(before) == multiset(before[..i]) + multiset(before[i..]);
    assert multiset(after) == multiset(after[..i]) + multiset(after[i..]);
    forall x ensures multiset(before[i..])[x] == multiset(after[i..])[x] {
      assert multiset(before)[x] == multiset(before[..i])[x] + multiset(before[i..])[x];
      assert multiset(after)[x] == multiset(after[..i])[x] + multiset(after[i..])[x];
    }
  }

  /** The exchange sort: highest priority first, the same entries. */
  method SortByPriority(a: array<Handle>, store: map<Handle, Rule>)
    modifies a
    ensures SortedDesc(store, a[..])
    ensures multiset(a[..]) == multiset(old(a[..]))
  {
    if a.Length <= 1 {
      return;
    }
    var i := 0;
    while i < a.Length - 1
      invariant 0 <= i <= a.Length - 1
      invariant multiset(a[..]) == multiset(old(a[..]))
      invariant forall x, y :: 0 <= x < i && x < y < a.Length ==> Priority(store, a[x]) >= Priority(store, a[y])
    {
      ghost var before := a[..];
      PlaceMax(a, store, i);
      assert before[..i] == a[..i];
      SuffixPerm(before, a[..], i);
      forall x | 0 <= x < i ensures AtMost(store, a[..][i..], Priority(store, a[x])) {
        assert AtMost(store, before[i..], Priority(store, before[x]));
        AtMostPerm(store, before[i..], a[..][i..], Priority(store, a[x]));
      }
      forall x, y | 0 <= x < i + 1 && x < y < a.Length ensures Priority(store, a[x]) >= Priority(store, a[y]) {
        if x < i && y < i {
          assert a[x] == before[x] && a[y] == before[y];
        } else if x < i {
          assert AtMost(store, a[..][i..], Priority(store, a[x]));
          assert a[y] == a[..][i..][y - i];
        }
      }
      i := i + 1;
    }
    assert SortedDesc(store, a[..]) by {
      forall x, y | 0 <= x < y < a.Length ensures Priority(store, a[..][x]) >= Priority(store, a[..][y]) {
        assert a[..][x] == a[x] && a[..][y] == a[y];
      }
    }
  }

  // ---- the store ----

  /** `after` is `before` with `h` appended to slice `t` and that slice
    * sorted by priority; every other slice is unchanged. */
  ghost predicate AppendedSorted(before: map<string, seq<Handle>>, after: map<string, seq<Handle>>,
                                 store: map<Handle, Rule>, t: string, h: Handle)
  {
    && after.Keys == before.Keys + {t}
    && multiset(after[t]) == multiset(IndexOf(before, t)) + multiset{h}
    && SortedDesc(store, after[t])
    && (forall u :: u in before && u != t ==> after[u] == before[u])
  }

  // ---- the index mirrors the id map ----

  /** The handle is the rule stored under its own id. */
  ghost predicate Current(rules: map<string, Handle>, store: map<Handle, Rule>, h: Handle)
  {
    h in store && store[h].id in rules && rules[store[h].id] == h
  }

  ghost predicate NoRepeats(s: seq<Handle>)
  {
    forall x :: multiset(s)[x] <= 1
  }

  /** What the two maps are meant to agree on: every rule under an id sits
    * in its type's slice, and a slice holds only such rules, each once. */
  ghost predicate Consistent(rules: map<string, Handle>, index: map<string, seq<Handle>>, store: map<Handle, Rule>)
  {
    IdsIndexed(rules, index, store) && IndexCurrent(rules, index, store) && IndexNoRepeats(index)
  }

  /** Every rule under an id sits in its type's slice. */
  ghost predicate IdsIndexed(rules: map<string, Handle>, index: map<string, seq<Handle>>, store: map<Handle, Rule>)
  {
    forall id :: id in rules ==>
      (rules[id] in store && store[rules[id]].id == id
       && store[rules[id]].ruleType in index && rules[id] in index[store[rules[id]].ruleType])
  }

  /** A slice holds only current rules of its type. */
  ghost predicate IndexCurrent(rules: map<string, Handle>, index: map<string, seq<Handle>>, store: map<Handle, Rule>)
  {
    forall t, k :: t in index && 0 <= k < |index[t]| ==>
      (Current(rules, store, index[t][k]) && store[index[t][k]].ruleType == t)
  }

  ghost predicate IndexNoRepeats(index: map<string, seq<Handle>>)
  {
    forall t :: t in index ==> NoRepeats(index[t])
  }

  lemma WithoutMultiset(hs: seq<Handle>, i: nat)
    requires i < |hs|
    ensures multiset(Without(hs, i)) == multiset(hs) - multiset{hs[i]}
  {
    assert hs == hs[..i] + [hs[i]] + hs[i + 1..];
  }

  /** Under agreement, the first entry with an id in its rule's slice is
    * the rule under that id, and it occurs there once. */
  lemma FindCurrent(rules: map<string, Handle>, index: map<string, seq<Handle>>, store: map<Handle, Rule>, id: string)
    returns (k: nat)
    requires Consistent(rules, index, store) && id in rules
    ensures var t := store[rules[id]].ruleType;
      t in index && IndexOfId(store, index[t], id) == Some(k) && k < |index[t]| && index[t][k] == rules[id]
      && multiset(index[t])[rules[id]] == 1
  {
    var h0 := rules[id];
    var t := store[h0].ruleType;
    var hs := index[t];
    var j :| 0 <= j < |hs| && hs[j] == h0;
    var found := IndexOfId(store, hs, id);
    assert found.Some?;
    k := found.value;
    assert Current(rules, store, hs[k]);
    assert multiset(hs)[h0] <= 1;
  }

  lemma RemoveKeepsIndexed(rules: map<string, Handle>, index: map<string, seq<Handle>>, store: map<Handle, Rule>,
                           id: string, rest: seq<Handle>)
    requires Consistent(rules, index, store) && id in rules
    requires var t := store[rules[id]].ruleType;
      t in index && multiset(rest) == multiset(index[t]) - multiset{rules[id]}
    ensures IdsIndexed(rules - {id}, index[store[rules[id]].ruleType := rest], store)
  {
    var t := store[rules[id]].ruleType;
    forall id' | id' in rules - {id}
      ensures store[rules[id']].ruleType == t ==> rules[id'] in rest
    {
      var h := rules[id'];
      if store[h].ruleType == t {
        assert h in multiset(index[t]);
        assert h in multiset(rest);
      }
    }
  }

  lemma RemoveKeepsCurrent(rules: map<string, Handle>, index: map<string, seq<Handle>>, store: map<Handle, Rule>,
                           id: string, rest: seq<Handle>)
    requires Consistent(rules, index, store) && id in rules
    requires var t := store[rules[id]].ruleType;
      t in index && multiset(rest) == multiset(index[t]) - multiset{rules[id]} && rules[id] !in multiset(rest)
    ensures IndexCurrent(rules - {id}, index[store[rules[id]].ruleType := rest], store)
  {
    var t := store[rules[id]].ruleType;
    var index' := index[t := rest];
    forall u, m | u in index' && 0 <= m < |index'[u]|
      ensures Current(rules - {id}, store, index'[u][m]) && store[index'[u][m]].ruleType == u
    {
      var e := index'[u][m];
      if u == t {
        assert e in multiset(rest);
        assert e in multiset(index[t]);
        var m' :| 0 <= m' < |index[t]| && index[t][m'] == e;
        assert Current(rules, store, index[t][m']);
      } else {
        assert Current(rules, store, index[u][m]);
      }
    }
  }

  /** Removing a rule from the id map and the first entry with its id from
    * its slice keeps the maps in agreement. */
  lemma ConsistentRemove(rules: map<string, Handle>, index: map<string, seq<Handle>>, store: map<Handle, Rule>, id: string)
    requires Consistent(rules, index, store) && id in rules
    ensures Consistent(rules - {id}, RemoveFirst(index, store, store[rules[id]].ruleType, id), store)
  {
    var t := store[rules[id]].ruleType;
    var k := FindCurrent(rules, index, store, id);
    var rest := Without(index[t], k);
    WithoutMultiset(index[t], k);
    assert RemoveFirst(index, store, t, id) == index[t := rest];
    RemoveKeepsIndexed(rules, index, store, id, rest);
    RemoveKeepsCurrent(rules, index, store, id, rest);
    FewerNoRepeats(index, t, rest);
  }

  /** A slice with fewer of each handle than a slice without repeats has none either. */
  lemma FewerNoRepeats(index: map<string, seq<Handle>>, t: string, rest: seq<Handle>)
    requires IndexNoRepeats(index) && t in index && multiset(rest) <= multiset(index[t])
    ensures IndexNoRepeats(index[t := rest])
  {
    forall x ensures multiset(rest)[x] <= 1 {
      assert multiset(index[t])[x] <= 1;
    }
  }

  lemma AddKeepsIndexed(rules: map<string, Handle>, index: map<string, seq<Handle>>, store: map<Handle, Rule>,
                        h: Handle, p: Rule, index': map<string, seq<Handle>>)
    requires Consistent(rules, index, store) && h !in store && p.id !in rules
    requires AppendedSorted(index, index', store[h := p], p.ruleType, h)
    ensures IdsIndexed(rules[p.id := h], index', store[h := p])
  {
    var t := p.ruleType;
    assert h in multiset(index'[t]);
    forall id | id in rules && id != p.id
      ensures store[rules[id]].ruleType == t ==> rules[id] in index'[t]
    {
      var g := rules[id];
      if store[g].ruleType == t {
        assert g in multiset(index[t]);
        assert g in multiset(index'[t]);
      }
    }
  }

  lemma AddKeepsCurrent(rules: map<string, Handle>, index: map<string, seq<Handle>>, store: map<Handle, Rule>,
                        h: Handle, p: Rule, index': map<string, seq<Handle>>)
    requires Consistent(rules, index, store) && h !in store && p.id !in rules
    requires AppendedSorted(index, index', store[h := p], p.ruleType, h)
    ensures IndexCurrent(rules[p.id := h], index', store[h := p])
  {
    var t := p.ruleType;
    forall u, m | u in index' && 0 <= m < |index'[u]|
      ensures Current(rules[p.id := h], store[h := p], index'[u][m]) && store[h := p][index'[u][m]].ruleType == u
    {
      var e := index'[u][m];
      if u == t {
        assert e in multiset(index'[t]);
        if e != h {
          assert e in multiset(IndexOf(index, t));
          var m' :| 0 <= m' < |index[t]| && index[t][m'] == e;
          assert Current(rules, store, index[t][m']);
        }
      } else {
        assert Current(rules, store, index[u][m]);
      }
    }
  }

  /** Storing a fresh rule under a new id and adding it to its type's slice
    * keeps the maps in agreement. */
  lemma ConsistentAdd(rules: map<string, Handle>, index: map<string, seq<Handle>>, store: map<Handle, Rule>,
                      h: Handle, p: Rule, index': map<string, seq<Handle>>)
    requires Consistent(rules, index, store) && h !in store && p.id !in rules
    requires AppendedSorted(index, index', store[h := p], p.ruleType, h)
    ensures Consistent(rules[p.id := h], index', store[h := p])
  {
    var t := p.ruleType;
    AddKeepsIndexed(rules, index, store, h, p, index');
    AddKeepsCurrent(rules, index, store, h, p, index');
    AddNoRepeats(rules, index, store, h, p, index');
  }

  lemma AddNoRepeats(rules: map<string, Handle>, index: map<string, seq<Handle>>, store: map<Handle, Rule>,
                     h: Handle, p: Rule, index': map<string, seq<Handle>>)
    requires Consistent(rules, index, store) && h !in store
    requires AppendedSorted(index, index', store[h := p], p.ruleType, h)
    ensures IndexNoRepeats(index')
  {
    var t := p.ruleType;
    forall x ensures multiset(index'[t])[x] <= 1 {
      if t in index {
        assert multiset(index[t])[x] <= 1;
      }
    }
  }

  /** Putting a fresh rule in place of the one under its id, out of the old
    * slice and into its type's, keeps the maps in agreement. */
  lemma ConsistentMove(rules: map<string, Handle>, index: map<string, seq<Handle>>, store: map<Handle, Rule>,
                       oldType: string, h: Handle, p: Rule, index': map<string, seq<Handle>>)
    requires Consistent(rules, index, store) && p.id in rules && store[rules[p.id]].ruleType == oldType && h !in store
    requires AppendedSorted(RemoveFirst(index, store, oldType, p.id), index', store[h := p], p.ruleType, h)
    ensures Consistent(rules[p.id := h], index', store[h := p])
  {
    ConsistentRemove(rules, index, store, p.id);
    ConsistentAdd(rules - {p.id}, RemoveFirst(index, store, oldType, p.id), store, h, p, index');
    ReplaceKey(rules, p.id, h);
  }

  lemma ReplaceKey<K, V>(m: map<K, V>, k: K, v: V)
    ensures (m - {k})[k := v] == m[k := v]
  {
  }

  /** Replacing a stored rule by one with the same id and type keeps the
    * maps in agreement. */
  lemma ConsistentRestore(rules: map<string, Handle>, index: map<string, seq<Handle>>, store: map<Handle, Rule>, g: Handle, r: Rule)
    requires Consistent(rules, index, store) && g in store && store[g].id == r.id && store[g].ruleType == r.ruleType
    ensures Consistent(rules, index, store[g := r])
  {
    var store' := store[g := r];
    forall t, k | t in index && 0 <= k < |index[t]|
      ensures Current(rules, store', index[t][k]) && store'[index[t][k]].ruleType == t
    {
      assert Current(rules, store, index[t][k]);
    }
  }

  /** The rule `AddRule` stores: the generated id when none is given, the
    * creation time when none is set (the zero time is 0 here). */
  function Stamped(rule: Rule, now: int, freshID: string): Rule
  {
    rule.(id := if rule.id == [] then freshID else rule.id,
          createdAt := if rule.createdAt == 0 then now else rule.createdAt,
          updatedAt := now)
  }

  class Firewall {
    var rules: map<string, Handle>
    var rulesByType: map<string, seq<Handle>>
    var store: map<Handle, Rule>
    var next: Handle

    ghost predicate Valid()
      reads this
    {
      StoreValid(rules, rulesByType, store, next)
    }

    /** `NewFirewall`: both maps empty. */
    constructor ()
      ensures Valid()
      ensures rules == map[] && rulesByType == map[] && store == map[] && next == 0
      ensures Consistent(rules, rulesByType, store)
    {
      rules := map[];
      rulesByType := map[];
      store := map[];
      next := 0;
    }

    method Allocate(rule: Rule) returns (h: Handle)
      requires Valid()
      modifies this
      ensures Valid()
      ensures h == old(next) && h !in old(store) && next == h + 1
      ensures store == old(store)[h := rule]
      ensures rules == old(rules) && rulesByType == old(rulesByType)
    {
      h := next;
      store := store[h := rule];
      next := next + 1;
    }

    method SetIndex(t: string, hs: seq<Handle>)
      requires Valid() && SliceOf(store, hs, t)
      modifies this
      ensures Valid()
      ensures rules == old(rules) && store == old(store) && next == old(next)
      ensures rulesByType == old(rulesByType)[t := hs]
    {
      rulesByType := rulesByType[t := hs];
    }

    method SetRule(id: string, h: Handle)
      requires Valid() && h in store
      modifies this
      ensures Valid()
      ensures rulesByType == old(rulesByType) && store == old(store) && next == old(next)
      ensures rules == old(rules)[id := h]
    {
      rules := rules[id := h];
    }

    method UnsetRule(id: string)
      requires Valid()
      modifies this
      ensures Valid()
      ensures rulesByType == old(rulesByType) && store == old(store) && next == old(next)
      ensures rules == old(rules) - {id}
    {
      rules := rules - {id};
    }

    /** `sortRulesByPriority`: the slice, copied into an array, sorted in
      * place and stored back; slices of fewer than two rules are left. */
    method SortIndex(t: string)
      requires Valid()
      modifies this
      ensures Valid()
      ensures rules == old(rules) && store == old(store) && next == old(next)
      ensures rulesByType.Keys == old(rulesByType).Keys
      ensures forall u :: u in old(rulesByType) && u != t ==> rulesByType[u] == old(rulesByType)[u]
      ensures t in old(rulesByType) ==>
        multiset(rulesByType[t]) == multiset(old(rulesByType)[t]) && SortedDesc(store, rulesByType[t])
    {
      if t !in rulesByType {
        return;
      }
      var hs := rulesByType[t];
      if |hs| <= 1 {
        return;
      }
      var a := new Handle[|hs|](k requires 0 <= k < |hs| => hs[k]);
      assert a[..] == hs;
      SortByPriority(a, store);
      SliceOfPerm(store, hs, a[..], t);
      SetIndex(t, a[..]);
    }

    /** Append `h` to slice `t` and sort it. */
    method AppendAndSort(t: string, h: Handle)
      requires Valid() && h in store && store[h].ruleType == t && (t == IPRule ==> store[h].ipRange.Some?)
      modifies this
      ensures Valid()
      ensures rules == old(rules) && store == old(store) && next == old(next)
      ensures AppendedSorted(old(rulesByType), rulesByType, store, t, h)
    {
      SetIndex(t, IndexOf(rulesByType, t) + [h]);
      SortIndex(t);
    }

    /** Remove the first entry with the id from slice `t`. */
    method RemoveFromIndex(t: string, id: string)
      requires Valid()
      modifies this
      ensures Valid()
      ensures rules == old(rules) && store == old(store) && next == old(next)
      ensures rulesByType == RemoveFirst(old(rulesByType), store, t, id)
    {
      if t !in rulesByType {
        return;
      }
      var hs := rulesByType[t];
      var i := 0;
      while i < |hs|
        invariant 0 <= i <= |hs|
        invariant forall k :: 0 <= k < i ==> !(hs[k] in store && store[hs[k]].id == id)
      {
        if store[hs[i]].id == id {
          IndexOfIdFirst(store, hs, id, i);
          SetIndex(t, Without(hs, i));
          return;
        }
        i := i + 1;
      }
      IndexOfIdNone(store, hs, id);
    }

    /** `AddRule`; `freshID` is the identifier generated for a rule without one. */
    method AddRule(rule: Option<Rule>, now: int, freshID: string, net: NetLib) returns (err: Option<FirewallError>)
      requires Valid()
      modifies this
      ensures Valid()
      ensures rule.None? || rule.value.ruleType == [] || rule.value.action == [] ==>
        err == Some(ErrInvalidRule) && unchanged(this)
      ensures err.Some? ==> unchanged(this)
      ensures rule.Some? && rule.value.ruleType != [] && rule.value.action != [] ==>
        var r := Stamped(rule.value, now, freshID);
        && (r.id in old(rules) ==> err == Some(ErrDuplicateRuleID))
        && (r.id !in old(rules) ==> (err.None? <==> PrepareRule(net, r).Ok?))
        && (err.None? ==>
          var p := PrepareRule(net, r).value;
          && next == old(next) + 1
          && store == old(store)[old(next) := p]
          && rules == old(rules)[r.id := old(next)]
          && AppendedSorted(old(rulesByType), rulesByType, store, p.ruleType, old(next)))
      ensures old(Consistent(rules, rulesByType, store)) ==> Consistent(rules, rulesByType, store)
    {
      if rule.None? || rule.value.ruleType == [] || rule.value.action == [] {
        return Some(ErrInvalidRule);
      }
      var r := Stamped(rule.value, now, freshID);
      if r.id in rules {
        return Some(ErrDuplicateRuleID);
      }
      var prepared := PrepareRule(net, r);
      if prepared.Err? {
        return Some(prepared.error);
      }
      var p := prepared.value;
      ghost var (rules0, index0, store0) := (rules, rulesByType, store);
      var h := Allocate(p);
      SetRule(p.id, h);
      AppendAndSort(p.ruleType, h);
      if Consistent(rules0, index0, store0) {
        ConsistentAdd(rules0, index0, store0, h, p, rulesByType);
      }
      err := None;
    }

    /** `RemoveRule`. */
    method RemoveRule(ruleID: string) returns (err: Option<FirewallError>)
      requires Valid()
      modifies this
      ensures Valid()
      ensures ruleID !in old(rules) ==> err == Some(ErrRuleNotFound) && unchanged(this)
      ensures ruleID in old(rules) ==>
        && err.None?
        && next == old(next)
        && rules == old(rules) - {ruleID}
        && store == old(store)
        && rulesByType == RemoveFirst(old(rulesByType), store, old(store)[old(rules)[ruleID]].ruleType, ruleID)
      ensures old(Consistent(rules, rulesByType, store)) ==> Consistent(rules, rulesByType, store)
    {
      if ruleID !in rules {
        return Some(ErrRuleNotFound);
      }
      var rule := store[rules[ruleID]];
      if Consistent(rules, rulesByType, store) {
        ConsistentRemove(rules, rulesByType, store, ruleID);
      }
      UnsetRule(ruleID);
      RemoveFromIndex(rule.ruleType, ruleID);
      err := None;
    }

    /** `UpdateRule` as written: a changed type moves the index entry, a
      * changed priority appends the new rule beside the old one, and
      * otherwise the index keeps the old rule; the id names the new rule. */
    method UpdateRule(rule: Option<Rule>, now: int, net: NetLib) returns (err: Option<FirewallError>)
      requires Valid()
      modifies this
      ensures Valid()
      ensures rule.None? || rule.value.id == [] ==> err == Some(ErrInvalidRule) && unchanged(this)
      ensures rule.Some? && rule.value.id != [] && rule.value.id !in old(rules) ==>
        err == Some(ErrRuleNotFound) && unchanged(this)
      ensures err.Some? ==> unchanged(this)
      ensures err.None? ==> rule.Some? && rule.value.id in old(rules)
      ensures rule.Some? && rule.value.id != [] && rule.value.id in old(rules) ==>
        var existing := old(store)[old(rules)[rule.value.id]];
        var prepared := PrepareRule(net, rule.value.(createdAt := existing.createdAt, updatedAt := now));
        (err.None? <==> prepared.Ok?)
        && (prepared.Err? ==> err == Some(prepared.error))
        && (prepared.Ok? ==>
          var p := prepared.value;
          && next == old(next) + 1
          && store == old(store)[old(next) := p]
          && rules == old(rules)[p.id := old(next)]
          && (existing.ruleType != p.ruleType ==>
            AppendedSorted(RemoveFirst(old(rulesByType), store, existing.ruleType, p.id), rulesByType, store, p.ruleType, old(next)))
          && (existing.ruleType == p.ruleType && existing.priority != p.priority ==>
            AppendedSorted(old(rulesByType), rulesByType, store, p.ruleType, old(next)))
          && (existing.ruleType == p.ruleType && existing.priority == p.priority ==>
            rulesByType == old(rulesByType)))
    {
      if rule.None? || rule.value.id == [] {
        return Some(ErrInvalidRule);
      }
      var r := rule.value;
      if r.id !in rules {
        return Some(ErrRuleNotFound);
      }
      var existing := store[rules[r.id]];
      r := r.(createdAt := existing.createdAt, updatedAt := now);
      var prepared := PrepareRule(net, r);
      if prepared.Err? {
        return Some(prepared.error);
      }
      var p := prepared.value;
      var h := Allocate(p);
      if existing.ruleType != p.ruleType {
        RemoveFromIndex(existing.ruleType, p.id);
        AppendAndSort(p.ruleType, h);
      } else if existing.priority != p.priority {
        AppendAndSort(p.ruleType, h);
      }
      SetRule(p.id, h);
      err := None;
    }

    /** `UpdateRule` as intended: the old rule leaves its slice in every
      * case, and the new one joins its type's slice in priority order. */
    method UpdateRuleCorrected(rule: Option<Rule>, now: int, net: NetLib) returns (err: Option<FirewallError>)
      requires Valid()
      modifies this
      ensures Valid()
      ensures rule.None? || rule.value.id == [] ==> err == Some(ErrInvalidRule) && unchanged(this)
      ensures rule.Some? && rule.value.id != [] && rule.value.id !in old(rules) ==>
        err == Some(ErrRuleNotFound) && unchanged(this)
      ensures err.Some? ==> unchanged(this)
      ensures err.None? ==> rule.Some? && rule.value.id in old(rules)
      ensures rule.Some? && rule.value.id != [] && rule.value.id in old(rules) ==>
        var existing := old(store)[old(rules)[rule.value.id]];
        var prepared := PrepareRule(net, rule.value.(createdAt := existing.createdAt, updatedAt := now));
        (err.None? <==> prepared.Ok?)
        && (prepared.Ok? ==>
          var p := prepared.value;
          && next == old(next) + 1
          && store == old(store)[old(next) := p]
          && rules == old(rules)[p.id := old(next)]
          && AppendedSorted(RemoveFirst(old(rulesByType), old(store), existing.ruleType, p.id), rulesByType, store, p.ruleType, old(next)))
      ensures old(Consistent(rules, rulesByType, store)) ==> Consistent(rules, rulesByType, store)
    {
      if rule.None? || rule.value.id == [] {
        return Some(ErrInvalidRule);
      }
      var r := rule.value;
      if r.id !in rules {
        return Some(ErrRuleNotFound);
      }
      var existing := store[rules[r.id]];
      r := r.(createdAt := existing.createdAt, updatedAt := now);
      var prepared := PrepareRule(net, r);
      if prepared.Err? {
        return Some(prepared.error);
      }
      var p := prepared.value;
      var _ := MoveRule(existing.ruleType, p);
      err := None;
    }

    /** Put `p` in place of the rule under its id: the old entry leaves its
      * slice and the new one joins its type's slice in priority order. */
    method MoveRule(oldType: string, p: Rule) returns (h: Handle)
      requires Valid() && p.id in rules && store[rules[p.id]].ruleType == oldType
      requires p.ruleType == IPRule ==> p.ipRange.Some?
      modifies this
      ensures Valid()
      ensures h == old(next) && next == old(next) + 1
      ensures store == old(store)[h := p] && rules == old(rules)[p.id := h]
      ensures AppendedSorted(RemoveFirst(old(rulesByType), old(store), oldType, p.id), rulesByType, store, p.ruleType, h)
      ensures old(Consistent(rules, rulesByType, store)) ==> Consistent(rules, rulesByType, store)
    {
      ghost var (rules0, index0, store0) := (rules, rulesByType, store);
      RemoveFromIndex(oldType, p.id);
      h := Allocate(p);
      AppendAndSort(p.ruleType, h);
      SetRule(p.id, h);
      if Consistent(rules0, index0, store0) {
        ConsistentMove(rules0, index0, store0, oldType, h, p, rulesByType);
      }
    }

    /** `GetRule`: the stored rule itself. */
    method GetRule(ruleID: string) returns (r: Result<Rule, FirewallError>)
      requires Valid()
      ensures ruleID !in rules ==> r == Err(ErrRuleNotFound)
      ensures ruleID in rules ==> r == Ok(store[rules[ruleID]])
    {
      if ruleID !in rules {
        return Err(ErrRuleNotFound);
      }
      r := Ok(store[rules[ruleID]]);
    }

    /** `ListRules`: every rule under an id, in map order. */
    method ListRules() returns (r: seq<Rule>, ghost ids: seq<string>)
      requires Valid()
      ensures |r| == |rules|
      ensures forall id :: id in rules ==> store[rules[id]] in r
      ensures forall x :: x in r ==> exists id :: id in rules && store[rules[id]] == x
      ensures Enumerates(rules, ids)
      ensures r == RulesOf(rules, store, ids)
    {
      var hs;
      hs, ids := RuleHandles(rules, store);
      r := Deref(store, hs);
      ListingOf(rules, store, ids, hs, r);
    }

    method SetEnabled(ruleID: string, enabled: bool, now: int) returns (err: Option<FirewallError>)
      requires Valid()
      modifies this
      ensures Valid()
      ensures ruleID !in old(rules) ==> err == Some(ErrRuleNotFound) && unchanged(this)
      ensures ruleID in old(rules) ==> (err.None? && next == old(next) && rules == old(rules) && rulesByType == old(rulesByType)
        && store == old(store)[old(rules)[ruleID] := old(store)[old(rules)[ruleID]].(isEnabled := enabled, updatedAt := now)])
      ensures old(Consistent(rules, rulesByType, store)) ==> Consistent(rules, rulesByType, store)
    {
      if ruleID !in rules {
        return Some(ErrRuleNotFound);
      }
      var h := rules[ruleID];
      var r := store[h].(isEnabled := enabled, updatedAt := now);
      if Consistent(rules, rulesByType, store) {
        ConsistentRestore(rules, rulesByType, store, h, r);
      }
      StoreValidRestore(rules, rulesByType, store, next, h, r);
      store := store[h := r];
      err := None;
    }

    method EnableRule(ruleID: string, now: int) returns (err: Option<FirewallError>)
      requires Valid()
      modifies this
      ensures Valid()
      ensures ruleID !in old(rules) ==> err == Some(ErrRuleNotFound) && unchanged(this)
      ensures ruleID in old(rules) ==> (err.None? && next == old(next) && rules == old(rules) && rulesByType == old(rulesByType)
        && store == old(store)[old(rules)[ruleID] := old(store)[old(rules)[ruleID]].(isEnabled := true, updatedAt := now)])
      ensures old(Consistent(rules, rulesByType, store)) ==> Consistent(rules, rulesByType, store)
    {
      err := SetEnabled(ruleID, true, now);
    }

    method DisableRule(ruleID: string, now: int) returns (err: Option<FirewallError>)
      requires Valid()
      modifies this
      ensures Valid()
      ensures ruleID !in old(rules) ==> err == Some(ErrRuleNotFound) && unchanged(this)
      ensures ruleID in old(rules) ==> (err.None? && next == old(next) && rules == old(rules) && rulesByType == old(rulesByType)
        && store == old(store)[old(rules)[ruleID] := old(store)[old(rules)[ruleID]].(isEnabled := false, updatedAt := now)])
      ensures old(Consistent(rules, rulesByType, store)) ==> Consistent(rules, rulesByType, store)
    {
      err := SetEnabled(ruleID, false, now);
    }

    /** `Evaluate`: rule types in the order IP, geo, URL, header, content,
      * rate; the rate limiter is asked once per enabled rate rule. */
    method Evaluate(req: Request, net: NetLib, lim: RateOracle) returns (r: Evaluation)
      requires Valid()
      ensures r == Verdict(rulesByType, store, req, net, lim)
    {
      var n := 0;
      var v;
      v, n := EvaluateRulesByType(IPRule, req, net, lim, n);
      if v.Some? { return v.value; }
      v, n := EvaluateRulesByType(GeoRule, req, net, lim, n);
      if v.Some? { return v.value; }
      v, n := EvaluateRulesByType(URLRule, req, net, lim, n);
      if v.Some? { return v.value; }
      v, n := EvaluateRulesByType(HeaderRule, req, net, lim, n);
      if v.Some? { return v.value; }
      v, n := EvaluateRulesByType(ContentRule, req, net, lim, n);
      if v.Some? { return v.value; }
      v, n := EvaluateRulesByType(RateRule, req, net, lim, n);
      if v.Some? { return v.value; }
      r := NoMatch;
    }

    /** `evaluateRulesByType`: the first enabled rule of the slice that
      * matches; `n` counts the rate limiter calls made before. */
    method EvaluateRulesByType(t: string, req: Request, net: NetLib, lim: RateOracle, n: nat)
      returns (v: Option<Evaluation>, n': nat)
      requires Valid()
      ensures Scan(IndexOf(rulesByType, t), store, req, net, lim, n) == ScanResult(v, n')
    {
      var hs := IndexOf(rulesByType, t);
      if |hs| == 0 {
        return None, n;
      }
      var i := 0;
      n' := n;
      assert hs[0..] == hs;
      while i < |hs|
        invariant 0 <= i <= |hs|
        invariant Scan(hs[i..], store, req, net, lim, n') == Scan(hs, store, req, net, lim, n)
      {
        assert hs[i..][1..] == hs[i + 1..];
        var rule := store[hs[i]];
        if rule.isEnabled {
          var matched := false;
          if rule.ruleType == RateRule {
            matched := !lim.allow(n', ImplRateKey(req), rule.rateLimit, rule.ratePeriod);
            n' := n' + 1;
          } else if rule.ruleType == GeoRule {
            if req.country != [] {
              matched := ListsCountry(rule.countries, req.country);
            }
          } else {
            matched := Matches(rule, req, net);
          }
          if matched {
            return Some(Matched(rule)), n';
          }
        }
        i := i + 1;
      }
      v := None;
    }
  }

  /** The inner loop of a geo rule: an exact, case-sensitive comparison. */
  method ListsCountry(countries: seq<string>, country: string) returns (found: bool)
    ensures found <==> country in countries
  {
    var j := 0;
    while j < |countries|
      invariant 0 <= j <= |countries|
      invariant country !in countries[..j]
    {
      if countries[j] == country {
        return true;
      }
      assert countries[..j + 1] == countries[..j] + [countries[j]];
      j := j + 1;
    }
    assert countries[..j] == countries;
    found := false;
  }

  // ---- evaluation ----

  /** The verdict when no rule matches. */
  const NoMatch := Evaluation(ActionAllow, None, "No matching rules found", "debug", 0)

  /** The limiter key: the user, else the session, else the address. */
  function ImplRateKey(req: Request): (key: string)
    ensures req.userID != [] ==> key == "user:" + req.userID
    ensures req.userID == [] && req.sessionID != [] ==> key == "session:" + req.sessionID
    ensures req.userID == [] && req.sessionID == [] ==> key == IPString(req.ip)
  {
    if req.userID != [] then "user:" + req.userID
    else if req.sessionID != [] then "session:" + req.sessionID
    else IPString(req.ip)
  }

  /** Whether an enabled IP, geo, URL, header or content rule matches the
    * request; URL and content patterns match as prefixes. */
  function Matches(rule: Rule, req: Request, net: NetLib): (b: bool)
    ensures rule.ruleType == IPRule ==>
      (b <==> rule.ipRange.Some? && req.ip.Some? && net.contains(rule.ipRange.value, req.ip.value))
    ensures rule.ruleType == GeoRule ==> (b <==> req.country != [] && req.country in rule.countries)
    ensures rule.ruleType == URLRule ==> (b <==> rule.pattern != [] && HasPrefix(req.url, rule.pattern))
    ensures rule.ruleType == HeaderRule ==>
      (b <==> (rule.headerName != [] && rule.headerName in req.headers
               && (rule.headerValue == [] || rule.headerValue == req.headers[rule.headerName])))
    ensures rule.ruleType == ContentRule ==>
      (b <==> req.userAgent != [] && rule.pattern != [] && HasPrefix(req.userAgent, rule.pattern))
    ensures rule.ruleType !in {IPRule, GeoRule, URLRule, HeaderRule, ContentRule} ==> !b
  {
    if rule.ruleType == IPRule then
      rule.ipRange.Some? && req.ip.Some? && net.contains(rule.ipRange.value, req.ip.value)
    else if rule.ruleType == URLRule then
      rule.pattern != [] && (req.url == rule.pattern
        || (|req.url| >= |rule.pattern| && req.url[..|rule.pattern|] == rule.pattern))
    else if rule.ruleType == HeaderRule then
      rule.headerName != [] && rule.headerName in req.headers
      && (rule.headerValue == [] || rule.headerValue == req.headers[rule.headerName])
    else if rule.ruleType == ContentRule then
      req.userAgent != [] && rule.pattern != [] && (req.userAgent == rule.pattern
        || (|req.userAgent| >= |rule.pattern| && req.userAgent[..|rule.pattern|] == rule.pattern))
    else if rule.ruleType == GeoRule then
      req.country != [] && req.country in rule.countries
    else false
  }

  /** The result for a matched rule; only a rate rule whose action is to
    * rate limit asks the caller to wait, for its period. */
  function Matched(rule: Rule): (e: Evaluation)
    ensures e.matchedRule == Some(rule) && e.action == rule.action && e.reason == rule.description
    ensures e.throttleFor != 0 ==> rule.ruleType == RateRule && rule.action == ActionRate && e.throttleFor == rule.ratePeriod
  {
    Evaluation(rule.action, Some(rule), rule.description, "info",
      if rule.ruleType == RateRule && rule.action == ActionRate then rule.ratePeriod else 0)
  }

  /** The outcome of one slice: the verdict, and the limiter calls made so far. */
  datatype ScanResult = ScanResult(verdict: Option<Evaluation>, calls: nat)

  /** The loop of `evaluateRulesByType` from limiter call `n` on. */
  function Scan(hs: seq<Handle>, store: map<Handle, Rule>, req: Request, net: NetLib, lim: RateOracle, n: nat): ScanResult
    decreases |hs|
  {
    if hs == [] then ScanResult(None, n)
    else if hs[0] !in store || !store[hs[0]].isEnabled then Scan(hs[1..], store, req, net, lim, n)
    else
      var rule := store[hs[0]];
      if rule.ruleType == RateRule then
        if !lim.allow(n, ImplRateKey(req), rule.rateLimit, rule.ratePeriod) then ScanResult(Some(Matched(rule)), n + 1)
        else Scan(hs[1..], store, req, net, lim, n + 1)
      else if Matches(rule, req, net) then ScanResult(Some(Matched(rule)), n)
      else Scan(hs[1..], store, req, net, lim, n)
  }

  function Verdict(index: map<string, seq<Handle>>, store: map<Handle, Rule>, req: Request, net: NetLib, lim: RateOracle): Evaluation
  {
    var ip := Scan(IndexOf(index, IPRule), store, req, net, lim, 0);
    var geo := Scan(IndexOf(index, GeoRule), store, req, net, lim, ip.calls);
    var url := Scan(IndexOf(index, URLRule), store, req, net, lim, geo.calls);
    var header := Scan(IndexOf(index, HeaderRule), store, req, net, lim, url.calls);
    var content := Scan(IndexOf(index, ContentRule), store, req, net, lim, header.calls);
    var rate := Scan(IndexOf(index, RateRule), store, req, net, lim, content.calls);
    if ip.verdict.Some? then ip.verdict.value
    else if geo.verdict.Some? then geo.verdict.value
    else if url.verdict.Some? then url.verdict.value
    else if header.verdict.Some? then header.verdict.value
    else if content.verdict.Some? then content.verdict.value
    else if rate.verdict.Some? then rate.verdict.value
    else NoMatch
  }
}
