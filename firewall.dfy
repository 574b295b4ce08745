// The rule store of internal/security/firewall/firewall.go: rules by id and
// a per-type index of the same rules kept in stable priority order, and
// evaluation of a request against the index, type by type in the order IP,
// URL, header, rate, geo, content, the first matching enabled rule winning.
module RuleFirewall {
  import opened Wrappers
  import opened StrUtil
  import opened Seqs
  import opened FirewallTypes

  /** `prepareRule`: enable the rule, then validate it by type. */
  function PrepareRule(net: NetLib, re: RegexLib, rule: Rule): (r: Result<Rule, FirewallError>)
    ensures r.Ok? ==> r.value.isEnabled
    ensures r.Ok? ==> r.value.id == rule.id && r.value.ruleType == rule.ruleType && r.value.priority == rule.priority
    ensures r.Ok? ==> r.value == rule.(isEnabled := true, ipRange := r.value.ipRange)
    ensures r.Ok? && rule.ruleType == IPRule ==> r.value.ipRange.Some?
  {
    ValidateByType(net, rule.(isEnabled := true), Some(re.compiles))
  }

  /** The index once the first entry with the id in slice `t` is `h`. */
  function ReplaceFirst(index: map<string, seq<Handle>>, store: map<Handle, Rule>, t: string, id: string, h: Handle): map<string, seq<Handle>>
  {
    if t !in index then index
    else
      match IndexOfId(store, index[t], id)
      case None => index
      case Some(i) => index[t := Replace(index[t], i, h)]
  }

  /** The index with slice `t`, if present, stably sorted by priority. */
  function SortSlice(index: map<string, seq<Handle>>, store: map<Handle, Rule>, t: string): map<string, seq<Handle>>
  {
    if t in index then index[t := StableSortDesc(store, index[t])] else index
  }

  /** The type-change branch: the id leaves the old slice, `h` joins the new one. */
  function MoveIndex(index: map<string, seq<Handle>>, store: map<Handle, Rule>, oldType: string, p: Rule, h: Handle): map<string, seq<Handle>>
  {
    var removed := RemoveFirst(index, store, oldType, p.id);
    var added := removed[p.ruleType := IndexOf(removed, p.ruleType) + [h]];
    SortSlice(SortSlice(added, store, oldType), store, p.ruleType)
  }

  /** A slice once its first entry with the id has left it. */
  function Removed(store: map<Handle, Rule>, hs: seq<Handle>, id: string): seq<Handle>
  {
    match IndexOfId(store, hs, id)
    case None => hs
    case Some(i) => Without(hs, i)
  }

  /** Exactly one entry leaves: the first with the id, if there is one. */
  lemma RemovedDropsFirst(store: map<Handle, Rule>, hs: seq<Handle>, id: string)
    ensures IndexOfId(store, hs, id).None? ==> Removed(store, hs, id) == hs
    ensures IndexOfId(store, hs, id).Some? ==>
      var i := IndexOfId(store, hs, id).value;
      multiset(Removed(store, hs, id)) == multiset(hs) - multiset{hs[i]}
  {
    match IndexOfId(store, hs, id)
    case None =>
    case Some(i) =>
      assert hs == hs[..i] + [hs[i]] + hs[i + 1..];
      assert Without(hs, i) == hs[..i] + hs[i + 1..];
  }

  /** The index the corrected update leaves: the id's first entry out of
    * the old type's slice, that slice re-sorted, `h` onto the end of the
    * new type's slice, and that slice re-sorted. */
  function CorrectedIndex(index: map<string, seq<Handle>>, store: map<Handle, Rule>, oldType: string, p: Rule, h: Handle): map<string, seq<Handle>>
  {
    var removed := SortSlice(RemoveFirst(index, store, oldType, p.id), store, oldType);
    SortSlice(removed[p.ruleType := IndexOf(removed, p.ruleType) + [h]], store, p.ruleType)
  }

  /** What the corrected index holds: the new handle joins the new type's
    * slice, the id's first entry leaves the old type's, and every other
    * slice is as it was. */
  lemma CorrectedIndexContents(index: map<string, seq<Handle>>, store: map<Handle, Rule>, oldType: string, p: Rule, h: Handle)
    ensures var c := CorrectedIndex(index, store, oldType, p, h);
      && p.ruleType in c
      && (forall t :: t != oldType && t != p.ruleType ==> IndexOf(c, t) == IndexOf(index, t))
      && (oldType != p.ruleType ==>
            && multiset(IndexOf(c, oldType)) == multiset(Removed(store, IndexOf(index, oldType), p.id))
            && multiset(c[p.ruleType]) == multiset(IndexOf(index, p.ruleType)) + multiset{h})
      && (oldType == p.ruleType ==>
            multiset(c[p.ruleType]) == multiset(Removed(store, IndexOf(index, oldType), p.id)) + multiset{h})
  {
    var r1 := RemoveFirst(index, store, oldType, p.id);
    RemoveFirstSlices(index, store, oldType, p.id);
    var removed := SortSlice(r1, store, oldType);
    SortSliceSlices(r1, store, oldType);
    var added := removed[p.ruleType := IndexOf(removed, p.ruleType) + [h]];
    AppendSlices(removed, p.ruleType, h);
    SortSliceSlices(added, store, p.ruleType);
    ComposeSlices(index, r1, removed, added, SortSlice(added, store, p.ruleType),
                  Removed(store, IndexOf(index, oldType), p.id), oldType, p.ruleType, h);
  }

  lemma AppendSlices(index: map<string, seq<Handle>>, t: string, h: Handle)
    ensures IndexOf(index[t := IndexOf(index, t) + [h]], t) == IndexOf(index, t) + [h]
    ensures forall u :: u != t ==> IndexOf(index[t := IndexOf(index, t) + [h]], u) == IndexOf(index, u)
  {
  }

  /** The slice facts of the three steps of CorrectedIndex, put together. */
  lemma ComposeSlices(index: map<string, seq<Handle>>, r1: map<string, seq<Handle>>, removed: map<string, seq<Handle>>,
                      added: map<string, seq<Handle>>, c: map<string, seq<Handle>>, left: seq<Handle>,
                      t0: string, t1: string, h: Handle)
    requires IndexOf(r1, t0) == left && forall u :: u != t0 ==> IndexOf(r1, u) == IndexOf(index, u)
    requires multiset(IndexOf(removed, t0)) == multiset(IndexOf(r1, t0))
    requires forall u :: u != t0 ==> IndexOf(removed, u) == IndexOf(r1, u)
    requires t1 in added && IndexOf(added, t1) == IndexOf(removed, t1) + [h]
    requires forall u :: u != t1 ==> IndexOf(added, u) == IndexOf(removed, u)
    requires multiset(IndexOf(c, t1)) == multiset(IndexOf(added, t1)) && t1 in c
    requires forall u :: u != t1 ==> IndexOf(c, u) == IndexOf(added, u)
    ensures forall t :: t != t0 && t != t1 ==> IndexOf(c, t) == IndexOf(index, t)
    ensures t0 != t1 ==> (multiset(IndexOf(c, t0)) == multiset(left)
                          && multiset(c[t1]) == multiset(IndexOf(index, t1)) + multiset{h})
    ensures t0 == t1 ==> multiset(c[t1]) == multiset(left) + multiset{h}
  {
    assert IndexOf(c, t1) == c[t1];
    if t0 != t1 {
      assert IndexOf(removed, t1) == IndexOf(index, t1);
    }
  }

  lemma RemoveFirstSlices(index: map<string, seq<Handle>>, store: map<Handle, Rule>, t: string, id: string)
    ensures IndexOf(RemoveFirst(index, store, t, id), t) == Removed(store, IndexOf(index, t), id)
    ensures forall u :: u != t ==> IndexOf(RemoveFirst(index, store, t, id), u) == IndexOf(index, u)
  {
  }

  lemma SortSliceSlices(index: map<string, seq<Handle>>, store: map<Handle, Rule>, t: string)
    ensures multiset(IndexOf(SortSlice(index, store, t), t)) == multiset(IndexOf(index, t))
    ensures t in index ==> t in SortSlice(index, store, t)
    ensures forall u :: u != t ==> IndexOf(SortSlice(index, store, t), u) == IndexOf(index, u)
  {
  }

  /** The id map after `UpdateRule` stored `p` under handle `h`. */
  function RulesAfterUpdate(rules: map<string, Handle>, existing: Rule, p: Rule, h: Handle): map<string, Handle>
  {
    if existing.ruleType != p.ruleType then rules else rules[p.id := h]
  }

  /** The index after `UpdateRule` stored `p` under handle `h`, `store`
    * already holding it. */
  function IndexAfterUpdate(index: map<string, seq<Handle>>, store: map<Handle, Rule>, existing: Rule, p: Rule, h: Handle): map<string, seq<Handle>>
  {
    if existing.ruleType != p.ruleType then MoveIndex(index, store, existing.ruleType, p, h)
    else if existing.priority != p.priority then SortSlice(index, store, p.ruleType)
    else ReplaceFirst(index, store, p.ruleType, p.id, h)
  }

  class FirewallImpl {
    var rules: map<string, Handle>
    var rulesByType: map<string, seq<Handle>>
    var store: map<Handle, Rule>
    var next: Handle

    ghost predicate Valid()
      reads this
    {
      StoreValid(rules, rulesByType, store, next)
    }

    /** `NewFirewall`: both maps empty. */
    constructor ()
      ensures Valid()
      ensures rules == map[] && rulesByType == map[] && store == map[] && next == 0
    {
      rules := map[];
      rulesByType := map[];
      store := map[];
      next := 0;
    }

    /** Allocate a handle for a rule: the reference a new rule value gets. */
    method Allocate(rule: Rule) returns (h: Handle)
      requires Valid()
      modifies this
      ensures Valid()
      ensures h == old(next) && h !in old(store) && next == h + 1
      ensures store == old(store)[h := rule]
      ensures rules == old(rules) && rulesByType == old(rulesByType)
    {
      h := next;
      store := store[h := rule];
      next := next + 1;
    }

    /** The loop removing the first entry with the id from one index slice;
      * the slice is reassigned only when an entry is found. */
    method RemoveFromIndex(t: string, id: string)
      requires Valid()
      modifies this
      ensures Valid()
      ensures rules == old(rules) && store == old(store) && next == old(next)
      ensures rulesByType == RemoveFirst(old(rulesByType), store, t, id)
    {
      if t !in rulesByType {
        return;
      }
      var hs := rulesByType[t];
      var i := 0;
      while i < |hs|
        invariant 0 <= i <= |hs|
        invariant forall k :: 0 <= k < i ==> !(hs[k] in store && store[hs[k]].id == id)
      {
        if store[hs[i]].id == id {
          assert IndexOfId(store, hs, id) == Some(i) by {
            IndexOfIdFirst(store, hs, id, i);
          }
          SetIndex(t, Without(hs, i));
          return;
        }
        i := i + 1;
      }
      IndexOfIdNone(store, hs, id);
    }

    /** `AddRule`. */
    method AddRule(rule: Option<Rule>, now: int, net: NetLib, re: RegexLib) returns (err: Option<FirewallError>)
      requires Valid()
      modifies this
      ensures Valid()
      ensures rule.None? || rule.value.id == [] || rule.value.ruleType == [] || rule.value.action == [] ==>
        err == Some(ErrInvalidRule) && unchanged(this)
      ensures (rule.Some? && rule.value.id != [] && rule.value.ruleType != [] && rule.value.action != []
        && rule.value.id in old(rules)) ==> err == Some(ErrDuplicateRuleID) && unchanged(this)
      ensures err.None? <==> (rule.Some? && rule.value.id != [] && rule.value.ruleType != [] && rule.value.action != []
        && rule.value.id !in old(rules) && PrepareRule(net, re, rule.value.(createdAt := now, updatedAt := now)).Ok?)
      ensures err.Some? ==> unchanged(this)
      ensures err.None? ==>
        var p := PrepareRule(net, re, rule.value.(createdAt := now, updatedAt := now)).value;
        var h := old(next);
        && next == h + 1
        && store == old(store)[h := p]
        && rules == old(rules)[rule.value.id := h]
        && rulesByType == old(rulesByType)[p.ruleType := StableSortDesc(store, IndexOf(old(rulesByType), p.ruleType) + [h])]
        && SortedDesc(store, rulesByType[p.ruleType])
    {
      if rule.None? || rule.value.id == [] || rule.value.ruleType == [] || rule.value.action == [] {
        return Some(ErrInvalidRule);
      }
      var r := rule.value;
      if r.id in rules {
        return Some(ErrDuplicateRuleID);
      }
      r := r.(createdAt := now, updatedAt := now);
      var prepared := PrepareRule(net, re, r);
      if prepared.Err? {
        return Some(prepared.error);
      }
      var p := prepared.value;
      var h := Allocate(p);
      SetRule(p.id, h);
      var idx := IndexOf(rulesByType, p.ruleType) + [h];
      StableSortSorted(store, idx);
      SortKeepsSlice(store, idx, p.ruleType);
      SetIndex(p.ruleType, StableSortDesc(store, idx));
      err := None;
    }

    /** `RemoveRule`: the id leaves the map, and the first entry with the id
      * leaves the index slice of the stored rule's type. */
    method RemoveRule(ruleID: string) returns (err: Option<FirewallError>)
      requires Valid()
      modifies this
      ensures Valid()
      ensures ruleID !in old(rules) ==> err == Some(ErrRuleNotFound) && unchanged(this)
      ensures ruleID in old(rules) ==>
        var t := old(store)[old(rules)[ruleID]].ruleType;
        && err.None?
        && next == old(next)
        && rules == old(rules) - {ruleID}
        && store == old(store)
        && rulesByType == RemoveFirst(old(rulesByType), store, t, ruleID)
    {
      if ruleID !in rules {
        return Some(ErrRuleNotFound);
      }
      var rule := store[rules[ruleID]];
      UnsetRule(ruleID);
      RemoveFromIndex(rule.ruleType, ruleID);
      err := None;
    }

    /** `UpdateRule` as written: the rule keeps the stored creation time
      * and is prepared, then stored under a new handle, and the id map and
      * the index change as RulesAfterUpdate and IndexAfterUpdate say. */
    method UpdateRule(rule: Option<Rule>, now: int, net: NetLib, re: RegexLib) returns (err: Option<FirewallError>)
      requires Valid()
      modifies this
      ensures Valid()
      ensures rule.None? || rule.value.id == [] ==> err == Some(ErrInvalidRule) && unchanged(this)
      ensures rule.Some? && rule.value.id != [] && rule.value.id !in old(rules) ==>
        err == Some(ErrRuleNotFound) && unchanged(this)
      ensures err.Some? ==> unchanged(this)
      ensures err.None? ==> rule.Some? && rule.value.id in old(rules)
      ensures rule.Some? && rule.value.id != [] && rule.value.id in old(rules) ==>
        var existing := old(store)[old(rules)[rule.value.id]];
        var prepared := PrepareRule(net, re, rule.value.(createdAt := existing.createdAt, updatedAt := now));
        (err.None? <==> prepared.Ok?)
        && (prepared.Err? ==> err == Some(prepared.error))
        && (prepared.Ok? ==>
          && next == old(next) + 1
          && store == old(store)[old(next) := prepared.value]
          && rules == RulesAfterUpdate(old(rules), existing, prepared.value, old(next))
          && rulesByType == IndexAfterUpdate(old(rulesByType), store, existing, prepared.value, old(next)))
    {
      if rule.None? || rule.value.id == [] {
        return Some(ErrInvalidRule);
      }
      var r := rule.value;
      if r.id !in rules {
        return Some(ErrRuleNotFound);
      }
      var existing := store[rules[r.id]];
      r := r.(createdAt := existing.createdAt, updatedAt := now);
      var prepared := PrepareRule(net, re, r);
      if prepared.Err? {
        return Some(prepared.error);
      }
      var p := prepared.value;
      var h := Allocate(p);
      if existing.ruleType != p.ruleType {
        MoveToType(existing.ruleType, p, h);
      } else if existing.priority != p.priority {
        SetRule(p.id, h);
        SortIndex(p.ruleType);
      } else {
        SetRule(p.id, h);
        ReplaceInIndex(p.ruleType, p.id, h);
      }
      err := None;
    }

    /** The type-change branch of `UpdateRule`: out of the old type's slice,
      * onto the end of the new type's, both re-sorted; the id map is left alone. */
    method MoveToType(oldType: string, p: Rule, h: Handle)
      requires Valid() && h in store && store[h] == p && oldType != p.ruleType
      requires p.ruleType == IPRule ==> p.ipRange.Some?
      modifies this
      ensures Valid()
      ensures rules == old(rules) && store == old(store) && next == old(next)
      ensures rulesByType == MoveIndex(old(rulesByType), store, oldType, p, h)
    {
      RemoveFromIndex(oldType, p.id);
      var idx := IndexOf(rulesByType, p.ruleType) + [h];
      SetIndex(p.ruleType, idx);
      SortIndex(oldType);
      SortIndex(p.ruleType);
    }

    /** `sortRulesByPriority`: a stable sort of one index slice, if present. */
    method SortIndex(t: string)
      requires Valid()
      modifies this
      ensures Valid()
      ensures rules == old(rules) && store == old(store) && next == old(next)
      ensures rulesByType == SortSlice(old(rulesByType), store, t)
      ensures t in rulesByType ==> SortedDesc(store, rulesByType[t])
    {
      if t in rulesByType {
        var hs := rulesByType[t];
        StableSortSorted(store, hs);
        SortKeepsSlice(store, hs, t);
        SetIndex(t, StableSortDesc(store, hs));
      }
    }

    /** Assign one index slice. */
    method SetIndex(t: string, hs: seq<Handle>)
      requires Valid() && SliceOf(store, hs, t)
      modifies this
      ensures Valid()
      ensures rules == old(rules) && store == old(store) && next == old(next)
      ensures rulesByType == old(rulesByType)[t := hs]
    {
      rulesByType := rulesByType[t := hs];
    }

    /** Delete one id. */
    method UnsetRule(id: string)
      requires Valid()
      modifies this
      ensures Valid()
      ensures rulesByType == old(rulesByType) && store == old(store) && next == old(next)
      ensures rules == old(rules) - {id}
    {
      rules := rules - {id};
    }

    /** Assign one id. */
    method SetRule(id: string, h: Handle)
      requires Valid() && h in store
      modifies this
      ensures Valid()
      ensures rulesByType == old(rulesByType) && store == old(store) && next == old(next)
      ensures rules == old(rules)[id := h]
    {
      rules := rules[id := h];
    }

    /** The loop that puts the new rule in place of the first entry with its id. */
    method ReplaceInIndex(t: string, id: string, h: Handle)
      requires Valid() && h in store && store[h].ruleType == t && (t == IPRule ==> store[h].ipRange.Some?)
      modifies this
      ensures Valid()
      ensures rules == old(rules) && store == old(store) && next == old(next)
      ensures rulesByType == ReplaceFirst(old(rulesByType), store, t, id, h)
    {
      if t !in rulesByType {
        return;
      }
      var hs := rulesByType[t];
      var i := 0;
      while i < |hs|
        invariant 0 <= i <= |hs|
        invariant forall k :: 0 <= k < i ==> !(hs[k] in store && store[hs[k]].id == id)
      {
        if store[hs[i]].id == id {
          IndexOfIdFirst(store, hs, id, i);
          SetIndex(t, Replace(hs, i, h));
          return;
        }
        i := i + 1;
      }
      IndexOfIdNone(store, hs, id);
    }

    /** `UpdateRule` as its comments describe it: the new rule replaces the
      * old one under its id and in the index, and the type's slice is
      * re-sorted by the new priority. */
    method UpdateRuleCorrected(rule: Option<Rule>, now: int, net: NetLib, re: RegexLib) returns (err: Option<FirewallError>)
      requires Valid()
      modifies this
      ensures Valid()
      ensures rule.None? || rule.value.id == [] ==> err == Some(ErrInvalidRule) && unchanged(this)
      ensures rule.Some? && rule.value.id != [] && rule.value.id !in old(rules) ==>
        err == Some(ErrRuleNotFound) && unchanged(this)
      ensures err.Some? ==> unchanged(this)
      ensures err.None? ==> rule.Some? && rule.value.id in old(rules)
      ensures rule.Some? && rule.value.id != [] && rule.value.id in old(rules) ==>
        var existing := old(store)[old(rules)[rule.value.id]];
        var prepared := PrepareRule(net, re, rule.value.(createdAt := existing.createdAt, updatedAt := now));
        (err.None? <==> prepared.Ok?)
        && (prepared.Ok? ==>
          && next == old(next) + 1
          && store == old(store)[old(next) := prepared.value]
          && rules == old(rules)[rule.value.id := old(next)]
          && rulesByType == CorrectedIndex(old(rulesByType), store, existing.ruleType, prepared.value, old(next))
          && prepared.value.ruleType in rulesByType
          && SortedDesc(store, rulesByType[prepared.value.ruleType])
          && old(next) in rulesByType[prepared.value.ruleType]
          && (forall t :: t != existing.ruleType && t != prepared.value.ruleType ==>
                IndexOf(rulesByType, t) == IndexOf(old(rulesByType), t))
          && (existing.ruleType != prepared.value.ruleType ==>
                && multiset(IndexOf(rulesByType, existing.ruleType))
                   == multiset(Removed(store, IndexOf(old(rulesByType), existing.ruleType), rule.value.id))
                && multiset(rulesByType[prepared.value.ruleType])
                   == multiset(IndexOf(old(rulesByType), prepared.value.ruleType)) + multiset{old(next)})
          && (existing.ruleType == prepared.value.ruleType ==>
                multiset(rulesByType[prepared.value.ruleType])
                == multiset(Removed(store, IndexOf(old(rulesByType), existing.ruleType), rule.value.id)) + multiset{old(next)}))
    {
      if rule.None? || rule.value.id == [] {
        return Some(ErrInvalidRule);
      }
      var r := rule.value;
      if r.id !in rules {
        return Some(ErrRuleNotFound);
      }
      var existing := store[rules[r.id]];
      r := r.(createdAt := existing.createdAt, updatedAt := now);
      var prepared := PrepareRule(net, re, r);
      if prepared.Err? {
        return Some(prepared.error);
      }
      var p := prepared.value;
      var h := Allocate(p);
      RemoveFromIndex(existing.ruleType, p.id);
      SortIndex(existing.ruleType);
      SetRule(p.id, h);
      var idx := IndexOf(rulesByType, p.ruleType) + [h];
      SetIndex(p.ruleType, idx);
      SortIndex(p.ruleType);
      assert h in multiset(StableSortDesc(store, idx));
      CorrectedIndexContents(old(rulesByType), store, existing.ruleType, p, h);
      err := None;
    }

    /** `GetRule`: a copy of the stored rule. */
    method GetRule(ruleID: string) returns (r: Result<Rule, FirewallError>)
      requires Valid()
      ensures ruleID !in rules ==> r == Err(ErrRuleNotFound)
      ensures ruleID in rules ==> r == Ok(store[rules[ruleID]])
    {
      if ruleID !in rules {
        return Err(ErrRuleNotFound);
      }
      r := Ok(store[rules[ruleID]]);
    }

    /** `ListRules`: a copy of every rule under an id, in some map order,
      * stably sorted by priority. */
    method ListRules() returns (r: seq<Rule>, ghost ids: seq<string>)
      requires Valid()
      ensures |r| == |rules|
      ensures forall id :: id in rules ==> store[rules[id]] in r
      ensures forall x :: x in r ==> exists id :: id in rules && store[rules[id]] == x
      ensures forall a, b :: 0 <= a < b < |r| ==> r[a].priority >= r[b].priority
      ensures Enumerates(rules, ids)
      ensures multiset(r) == multiset(RulesOf(rules, store, ids))
    {
      var hs;
      hs, ids := RuleHandles(rules, store);
      SortKeepsStored(store, hs);
      r := Deref(store, StableSortDesc(store, hs));
      SortedListing(rules, store, ids, hs, r);
    }

    /** `EnableRule` / `DisableRule`: the stored rule, which every index
      * entry sharing its handle sees, gets the flag and the update time. */
    method SetEnabled(ruleID: string, enabled: bool, now: int) returns (err: Option<FirewallError>)
      requires Valid()
      modifies this
      ensures Valid()
      ensures ruleID !in old(rules) ==> err == Some(ErrRuleNotFound) && unchanged(this)
      ensures ruleID in old(rules) ==> (err.None? && next == old(next) && rules == old(rules) && rulesByType == old(rulesByType)
        && store == old(store)[old(rules)[ruleID] := old(store)[old(rules)[ruleID]].(isEnabled := enabled, updatedAt := now)])
    {
      if ruleID !in rules {
        return Some(ErrRuleNotFound);
      }
      var h := rules[ruleID];
      store := store[h := store[h].(isEnabled := enabled, updatedAt := now)];
      err := None;
    }

    method EnableRule(ruleID: string, now: int) returns (err: Option<FirewallError>)
      requires Valid()
      modifies this
      ensures Valid()
      ensures ruleID !in old(rules) ==> err == Some(ErrRuleNotFound) && unchanged(this)
      ensures ruleID in old(rules) ==> (err.None? && next == old(next) && rules == old(rules) && rulesByType == old(rulesByType)
        && store == old(store)[old(rules)[ruleID] := old(store)[old(rules)[ruleID]].(isEnabled := true, updatedAt := now)])
    {
      err := SetEnabled(ruleID, true, now);
    }

    method DisableRule(ruleID: string, now: int) returns (err: Option<FirewallError>)
      requires Valid()
      modifies this
      ensures Valid()
      ensures ruleID !in old(rules) ==> err == Some(ErrRuleNotFound) && unchanged(this)
      ensures ruleID in old(rules) ==> (err.None? && next == old(next) && rules == old(rules) && rulesByType == old(rulesByType)
        && store == old(store)[old(rules)[ruleID] := old(store)[old(rules)[ruleID]].(isEnabled := false, updatedAt := now)])
    {
      err := SetEnabled(ruleID, false, now);
    }

    /** `Evaluate`: the verdict of the first rule type that has one, in the
      * order IP, URL, header, rate, geo, content. */
    method Evaluate(request: Option<Request>, net: NetLib, re: RegexLib, lim: RateOracle) returns (r: Evaluation)
      requires Valid()
      ensures r == Verdict(rulesByType, store, request, net, re, lim)
    {
      if request.None? {
        return Evaluation(ActionAllow, None, "No request context provided", "ERROR", 0);
      }
      var req := request.value;
      var v := EvaluateIPRules(req, net);
      if v.Some? { return v.value; }
      v := EvaluateURLRules(req, re);
      if v.Some? { return v.value; }
      v := EvaluateHeaderRules(req, re);
      if v.Some? { return v.value; }
      v := EvaluateRateRules(req, lim);
      if v.Some? { return v.value; }
      v := EvaluateGeoRules(req);
      if v.Some? { return v.value; }
      v := EvaluateContentRules(req, re);
      if v.Some? { return v.value; }
      r := NoMatch;
    }

    method EvaluateIPRules(req: Request, net: NetLib) returns (r: Option<Evaluation>)
      requires Valid()
      ensures r == IPVerdict(rulesByType, store, req, net)
    {
      var hs := IndexOf(rulesByType, IPRule);
      if |hs| == 0 || req.ip.None? {
        return None;
      }
      ghost var f := IPItemF(store, req, net);
      FirstSomeWhole(hs, f);
      var i := 0;
      while i < |hs|
        invariant 0 <= i <= |hs|
        invariant FirstSome(hs[i..], f) == FirstSome(hs, f)
      {
        FirstSomeStep(hs, i, f);
        var rule := store[hs[i]];
        if rule.isEnabled {
          // the rule was stored by AddRule or UpdateRule, which parsed its network
          assert rule.ipRange.Some?;
          if net.contains(rule.ipRange.value, req.ip.value) {
            return Some(Evaluation(rule.action, Some(rule), "IP match: " + req.ip.value, "INFO", 0));
          }
        }
        i := i + 1;
      }
      r := None;
    }

    method EvaluateURLRules(req: Request, re: RegexLib) returns (r: Option<Evaluation>)
      requires Valid()
      ensures r == URLVerdict(rulesByType, store, req, re)
    {
      var hs := IndexOf(rulesByType, URLRule);
      if |hs| == 0 || req.url == [] {
        return None;
      }
      ghost var f := URLItemF(store, req, re);
      FirstSomeWhole(hs, f);
      var i := 0;
      while i < |hs|
        invariant 0 <= i <= |hs|
        invariant FirstSome(hs[i..], f) == FirstSome(hs, f)
      {
        FirstSomeStep(hs, i, f);
        var rule := store[hs[i]];
        if rule.isEnabled && re.compiles(rule.pattern) && re.matches(rule.pattern, req.url) {
          return Some(Evaluation(rule.action, Some(rule), "URL match: " + req.url, "INFO", 0));
        }
        i := i + 1;
      }
      r := None;
    }

    method EvaluateHeaderRules(req: Request, re: RegexLib) returns (r: Option<Evaluation>)
      requires Valid()
      ensures r == HeaderVerdict(rulesByType, store, req, re)
    {
      var hs := IndexOf(rulesByType, HeaderRule);
      if |hs| == 0 || |req.headers| == 0 {
        return None;
      }
      ghost var f := HeaderItemF(store, req, re);
      FirstSomeWhole(hs, f);
      var i := 0;
      while i < |hs|
        invariant 0 <= i <= |hs|
        invariant FirstSome(hs[i..], f) == FirstSome(hs, f)
      {
        FirstSomeStep(hs, i, f);
        var rule := store[hs[i]];
        if rule.isEnabled && rule.headerName != [] && rule.headerName in req.headers {
          var value := req.headers[rule.headerName];
          if rule.pattern != [] {
            if re.compiles(rule.pattern) && re.matches(rule.pattern, value) {
              return Some(Evaluation(rule.action, Some(rule), "Header match: " + rule.headerName, "INFO", 0));
            }
          } else if rule.headerValue != [] {
            if rule.headerValue == value {
              return Some(Evaluation(rule.action, Some(rule), "Header match: " + rule.headerName, "INFO", 0));
            }
          } else {
            return Some(Evaluation(rule.action, Some(rule), "Header presence: " + rule.headerName, "INFO", 0));
          }
        }
        i := i + 1;
      }
      r := None;
    }

    /** The rate rules, each enabled one with a key asking the limiter; `n`
      * counts the limiter calls made so far. */
    method EvaluateRateRules(req: Request, lim: RateOracle) returns (r: Option<Evaluation>)
      requires Valid()
      ensures r == RateVerdict(rulesByType, store, req, lim)
    {
      var hs := IndexOf(rulesByType, RateRule);
      if |hs| == 0 {
        return None;
      }
      var i := 0;
      var n := 0;
      assert hs[0..] == hs;
      while i < |hs|
        invariant 0 <= i <= |hs|
        invariant RateScan(hs[i..], store, req, lim, n) == RateScan(hs, store, req, lim, 0)
      {
        assert hs[i..][1..] == hs[i + 1..];
        var rule := store[hs[i]];
        if rule.isEnabled {
          var key := RateKey(rule, req);
          if key != [] {
            if !lim.allow(n, key, rule.rateLimit, rule.ratePeriod) {
              var retryAfter := lim.retryAfter(n, key);
              return Some(Evaluation(rule.action, Some(rule), "Rate limit exceeded for " + key, "WARN", retryAfter));
            }
            n := n + 1;
          }
        }
        i := i + 1;
      }
      r := None;
    }

    method EvaluateGeoRules(req: Request) returns (r: Option<Evaluation>)
      requires Valid()
      ensures r == GeoVerdict(rulesByType, store, req)
    {
      var hs := IndexOf(rulesByType, GeoRule);
      if |hs| == 0 || req.country == [] {
        return None;
      }
      ghost var f := GeoItemF(store, req);
      FirstSomeWhole(hs, f);
      var i := 0;
      while i < |hs|
        invariant 0 <= i <= |hs|
        invariant FirstSome(hs[i..], f) == FirstSome(hs, f)
      {
        FirstSomeStep(hs, i, f);
        var rule := store[hs[i]];
        if rule.isEnabled {
          var found := HasCountry(rule.countries, req.country);
          if found {
            return Some(Evaluation(rule.action, Some(rule), "Geo match: " + req.country, "INFO", 0));
          }
        }
        i := i + 1;
      }
      r := None;
    }

    method EvaluateContentRules(req: Request, re: RegexLib) returns (r: Option<Evaluation>)
      requires Valid()
      ensures r == ContentVerdict(rulesByType, store, req, re)
    {
      var hs := IndexOf(rulesByType, ContentRule);
      if |hs| == 0 {
        return None;
      }
      ghost var f := ContentItemF(store, req, re);
      FirstSomeWhole(hs, f);
      var i := 0;
      while i < |hs|
        invariant 0 <= i <= |hs|
        invariant FirstSome(hs[i..], f) == FirstSome(hs, f)
      {
        FirstSomeStep(hs, i, f);
        var rule := store[hs[i]];
        if rule.isEnabled && re.compiles(rule.pattern) {
          if req.userAgent != [] && re.matches(rule.pattern, req.userAgent) {
            return Some(Evaluation(rule.action, Some(rule), "Content match in User-Agent", "INFO", 0));
          }
          if req.path != [] && re.matches(rule.pattern, req.path) {
            return Some(Evaluation(rule.action, Some(rule), "Content match in Path", "INFO", 0));
          }
        }
        i := i + 1;
      }
      r := None;
    }
  }

  // ---- evaluation ----

  const NoMatch := Evaluation(ActionAllow, None, "No rules matched", "DEBUG", 0)

  /** The loop over a rule's countries, comparing without regard to case. */
  method HasCountry(countries: seq<string>, country: string) returns (found: bool)
    ensures found <==> exists c :: c in countries && EqualFold(c, country)
  {
    var j := 0;
    while j < |countries|
      invariant 0 <= j <= |countries|
      invariant forall k :: 0 <= k < j ==> !EqualFold(countries[k], country)
    {
      if EqualFold(countries[j], country) {
        return true;
      }
      j := j + 1;
    }
    return false;
  }

  function IPItem(store: map<Handle, Rule>, req: Request, net: NetLib, h: Handle): (r: Option<Evaluation>)
    ensures r.Some? <==> (h in store && store[h].isEnabled && store[h].ipRange.Some? && req.ip.Some?
      && net.contains(store[h].ipRange.value, req.ip.value))
    ensures r.Some? ==> r.value.matchedRule == Some(store[h]) && r.value.action == store[h].action
  {
    if h !in store then None
    else
      var rule := store[h];
      if rule.isEnabled && rule.ipRange.Some? && req.ip.Some? && net.contains(rule.ipRange.value, req.ip.value)
      then Some(Evaluation(rule.action, Some(rule), "IP match: " + req.ip.value, "INFO", 0))
      else None
  }

  function IPItemF(store: map<Handle, Rule>, req: Request, net: NetLib): Handle -> Option<Evaluation>
  {
    (h: Handle) => IPItem(store, req, net, h)
  }

  function IPVerdict(index: map<string, seq<Handle>>, store: map<Handle, Rule>, req: Request, net: NetLib): Option<Evaluation>
  {
    var hs := IndexOf(index, IPRule);
    if |hs| == 0 || req.ip.None? then None else FirstSome(hs, IPItemF(store, req, net))
  }

  function URLItem(store: map<Handle, Rule>, req: Request, re: RegexLib, h: Handle): (r: Option<Evaluation>)
    ensures r.Some? <==> (h in store && store[h].isEnabled && re.compiles(store[h].pattern)
      && re.matches(store[h].pattern, req.url))
    ensures r.Some? ==> r.value.matchedRule == Some(store[h]) && r.value.action == store[h].action
  {
    if h !in store then None
    else
      var rule := store[h];
      if rule.isEnabled && re.compiles(rule.pattern) && re.matches(rule.pattern, req.url)
      then Some(Evaluation(rule.action, Some(rule), "URL match: " + req.url, "INFO", 0))
      else None
  }

  function URLItemF(store: map<Handle, Rule>, req: Request, re: RegexLib): Handle -> Option<Evaluation>
  {
    (h: Handle) => URLItem(store, req, re, h)
  }

  function URLVerdict(index: map<string, seq<Handle>>, store: map<Handle, Rule>, req: Request, re: RegexLib): Option<Evaluation>
  {
    var hs := IndexOf(index, URLRule);
    if |hs| == 0 || req.url == [] then None else FirstSome(hs, URLItemF(store, req, re))
  }

  /** A header rule matches by pattern, else by exact value, else by the
    * header's presence. */
  function HeaderItem(store: map<Handle, Rule>, req: Request, re: RegexLib, h: Handle): (r: Option<Evaluation>)
    ensures r.Some? ==> h in store && store[h].isEnabled && store[h].headerName in req.headers
    ensures r.Some? ==> r.value.matchedRule == Some(store[h]) && r.value.action == store[h].action
    ensures h in store && store[h].isEnabled && store[h].headerName != [] && store[h].headerName in req.headers ==>
      var rule := store[h];
      var value := req.headers[rule.headerName];
      (rule.pattern != [] ==> (r.Some? <==> re.compiles(rule.pattern) && re.matches(rule.pattern, value)))
      && (rule.pattern == [] && rule.headerValue != [] ==> (r.Some? <==> rule.headerValue == value))
      && (rule.pattern == [] && rule.headerValue == [] ==> r.Some? && r.value.reason == "Header presence: " + rule.headerName)
    ensures h in store && (!store[h].isEnabled || store[h].headerName == []) ==> r.None?
  {
    if h !in store then None
    else
      var rule := store[h];
      if !rule.isEnabled || rule.headerName == [] || rule.headerName !in req.headers then None
      else
        var value := req.headers[rule.headerName];
        if rule.pattern != [] then
          if re.compiles(rule.pattern) && re.matches(rule.pattern, value)
          then Some(Evaluation(rule.action, Some(rule), "Header match: " + rule.headerName, "INFO", 0))
          else None
        else if rule.headerValue != [] then
          if rule.headerValue == value
          then Some(Evaluation(rule.action, Some(rule), "Header match: " + rule.headerName, "INFO", 0))
          else None
        else Some(Evaluation(rule.action, Some(rule), "Header presence: " + rule.headerName, "INFO", 0))
  }

  function HeaderItemF(store: map<Handle, Rule>, req: Request, re: RegexLib): Handle -> Option<Evaluation>
  {
    (h: Handle) => HeaderItem(store, req, re, h)
  }

  function HeaderVerdict(index: map<string, seq<Handle>>, store: map<Handle, Rule>, req: Request, re: RegexLib): Option<Evaluation>
  {
    var hs := IndexOf(index, HeaderRule);
    if |hs| == 0 || |req.headers| == 0 then None else FirstSome(hs, HeaderItemF(store, req, re))
  }

  /** The limiter key of a rate rule; empty when the rule asks for a header
    * the request does not carry. */
  function RateKey(rule: Rule, req: Request): (key: string)
    ensures key == [] ==> (HasPrefix(rule.pattern, "header:") && |req.headers| > 0
      && TrimPrefix(rule.pattern, "header:") !in req.headers)
    ensures rule.pattern == "ip" ==> key == "ip:" + IPString(req.ip)
    ensures rule.pattern == "session" && req.sessionID != [] ==> key == "session:" + req.sessionID
    ensures rule.pattern == "user" && req.userID != [] ==> key == "user:" + req.userID
  {
    if rule.pattern == "ip" then "ip:" + IPString(req.ip)
    else if rule.pattern == "session" && req.sessionID != [] then "session:" + req.sessionID
    else if rule.pattern == "user" && req.userID != [] then "user:" + req.userID
    else if HasPrefix(rule.pattern, "header:") && |req.headers| > 0 then
      var name := TrimPrefix(rule.pattern, "header:");
      if name in req.headers then "header:" + name + ":" + req.headers[name] else []
    else if rule.pattern == "path" && req.path != [] then "path:" + req.path
    else "ip:" + IPString(req.ip)
  }

  /** The rate loop from limiter call `n` on. */
  function RateScan(hs: seq<Handle>, store: map<Handle, Rule>, req: Request, lim: RateOracle, n: nat): Option<Evaluation>
    decreases |hs|
  {
    if hs == [] then None
    else if hs[0] !in store || !store[hs[0]].isEnabled || RateKey(store[hs[0]], req) == [] then
      RateScan(hs[1..], store, req, lim, n)
    else
      var rule := store[hs[0]];
      var key := RateKey(rule, req);
      if !lim.allow(n, key, rule.rateLimit, rule.ratePeriod) then
        Some(Evaluation(rule.action, Some(rule), "Rate limit exceeded for " + key, "WARN", lim.retryAfter(n, key)))
      else RateScan(hs[1..], store, req, lim, n + 1)
  }

  function RateVerdict(index: map<string, seq<Handle>>, store: map<Handle, Rule>, req: Request, lim: RateOracle): Option<Evaluation>
  {
    var hs := IndexOf(index, RateRule);
    if |hs| == 0 then None else RateScan(hs, store, req, lim, 0)
  }

  function GeoItem(store: map<Handle, Rule>, req: Request, h: Handle): (r: Option<Evaluation>)
    ensures r.Some? <==> (h in store && store[h].isEnabled && exists c :: c in store[h].countries && EqualFold(c, req.country))
    ensures r.Some? ==> r.value.matchedRule == Some(store[h]) && r.value.action == store[h].action
  {
    if h !in store then None
    else
      var rule := store[h];
      if rule.isEnabled && exists c :: c in rule.countries && EqualFold(c, req.country)
      then Some(Evaluation(rule.action, Some(rule), "Geo match: " + req.country, "INFO", 0))
      else None
  }

  function GeoItemF(store: map<Handle, Rule>, req: Request): Handle -> Option<Evaluation>
  {
    (h: Handle) => GeoItem(store, req, h)
  }

  function GeoVerdict(index: map<string, seq<Handle>>, store: map<Handle, Rule>, req: Request): Option<Evaluation>
  {
    var hs := IndexOf(index, GeoRule);
    if |hs| == 0 || req.country == [] then None else FirstSome(hs, GeoItemF(store, req))
  }

  /** A content rule is tried on the user agent, then on the path. */
  function ContentItem(store: map<Handle, Rule>, req: Request, re: RegexLib, h: Handle): (r: Option<Evaluation>)
    ensures r.Some? <==> (h in store && store[h].isEnabled && re.compiles(store[h].pattern)
      && ((req.userAgent != [] && re.matches(store[h].pattern, req.userAgent))
        || (req.path != [] && re.matches(store[h].pattern, req.path))))
    ensures r.Some? ==> r.value.matchedRule == Some(store[h]) && r.value.action == store[h].action
    ensures r.Some? && req.userAgent != [] && re.matches(store[h].pattern, req.userAgent) ==>
      r.value.reason == "Content match in User-Agent"
  {
    if h !in store then None
    else
      var rule := store[h];
      if !rule.isEnabled || !re.compiles(rule.pattern) then None
      else if req.userAgent != [] && re.matches(rule.pattern, req.userAgent) then
        Some(Evaluation(rule.action, Some(rule), "Content match in User-Agent", "INFO", 0))
      else if req.path != [] && re.matches(rule.pattern, req.path) then
        Some(Evaluation(rule.action, Some(rule), "Content match in Path", "INFO", 0))
      else None
  }

  function ContentItemF(store: map<Handle, Rule>, req: Request, re: RegexLib): Handle -> Option<Evaluation>
  {
    (h: Handle) => ContentItem(store, req, re, h)
  }

  function ContentVerdict(index: map<string, seq<Handle>>, store: map<Handle, Rule>, req: Request, re: RegexLib): Option<Evaluation>
  {
    var hs := IndexOf(index, ContentRule);
    if |hs| == 0 then None else FirstSome(hs, ContentItemF(store, req, re))
  }

  function Verdict(index: map<string, seq<Handle>>, store: map<Handle, Rule>, request: Option<Request>, net: NetLib, re: RegexLib, lim: RateOracle): Evaluation
  {
    match request
    case None => Evaluation(ActionAllow, None, "No request context provided", "ERROR", 0)
    case Some(req) =>
      var ip := IPVerdict(index, store, req, net);
      var url := URLVerdict(index, store, req, re);
      var header := HeaderVerdict(index, store, req, re);
      var rate := RateVerdict(index, store, req, lim);
      var geo := GeoVerdict(index, store, req);
      var content := ContentVerdict(index, store, req, re);
      if ip.Some? then ip.value
      else if url.Some? then url.value
      else if header.Some? then header.value
      else if rate.Some? then rate.value
      else if geo.Some? then geo.value
      else if content.Some? then content.value
      else NoMatch
  }

  /** The rules of the sorted handles: every stored rule once, highest priority first. */
  lemma SortedListing(rules: map<string, Handle>, store: map<Handle, Rule>, ids: seq<string>, hs: seq<Handle>, r: seq<Rule>)
    requires forall id :: id in rules ==> rules[id] in store
    requires |hs| == |rules| && HandlesStored(store, hs)
    requires Enumerates(rules, ids) && |ids| == |hs|
    requires forall k :: 0 <= k < |hs| ==> hs[k] == rules[ids[k]]
    requires HandlesStored(store, StableSortDesc(store, hs)) && r == Deref(store, StableSortDesc(store, hs))
    ensures |r| == |rules|
    ensures forall id :: id in rules ==> store[rules[id]] in r
    ensures forall x :: x in r ==> exists id :: id in rules && store[rules[id]] == x
    ensures forall a, b :: 0 <= a < b < |r| ==> r[a].priority >= r[b].priority
    ensures Enumerates(rules, ids)
    ensures multiset(r) == multiset(RulesOf(rules, store, ids))
  {
    var sorted := StableSortDesc(store, hs);
    var listed := Deref(store, hs);
    ListingOf(rules, store, ids, hs, listed);
    DerefPerm(store, sorted, hs);
    SameMembers(r, listed);
    MembersCarry(rules, store, ids, listed, r);
    StableSortSorted(store, hs);
    SortedRules(store, sorted);
  }

  /** Two lists with the same multiset hold the same elements. */
  lemma SameMembers(a: seq<Rule>, b: seq<Rule>)
    requires multiset(a) == multiset(b)
    ensures |a| == |b| && forall x :: x in a <==> x in b
  {
    assert |a| == |multiset(a)|;
    forall x ensures x in a <==> x in b {
      assert x in a <==> x in multiset(a);
    }
  }

  lemma SortKeepsMember(store: map<Handle, Rule>, hs: seq<Handle>, h: Handle)
    ensures h in StableSortDesc(store, hs) <==> h in hs
  {
    assert h in multiset(StableSortDesc(store, hs)) <==> h in multiset(hs);
  }

  lemma SortedRules(store: map<Handle, Rule>, hs: seq<Handle>)
    requires HandlesStored(store, hs) && SortedDesc(store, hs)
    ensures forall a, b :: 0 <= a < b < |hs| ==> Deref(store, hs)[a].priority >= Deref(store, hs)[b].priority
  {
    forall a, b | 0 <= a < b < |hs| ensures Deref(store, hs)[a].priority >= Deref(store, hs)[b].priority {
      assert Priority(store, hs[a]) >= Priority(store, hs[b]);
    }
  }

  lemma SortKeepsSlice(store: map<Handle, Rule>, hs: seq<Handle>, t: string)
    requires SliceOf(store, hs, t)
    ensures SliceOf(store, StableSortDesc(store, hs), t)
  {
    var r := StableSortDesc(store, hs);
    forall k | 0 <= k < |r| ensures r[k] in store && store[r[k]].ruleType == t && (t == IPRule ==> store[r[k]].ipRange.Some?) {
      assert r[k] in multiset(hs);
    }
  }

  lemma SortKeepsStored(store: map<Handle, Rule>, hs: seq<Handle>)
    requires HandlesStored(store, hs)
    ensures HandlesStored(store, StableSortDesc(store, hs))
  {
    var r := StableSortDesc(store, hs);
    forall k | 0 <= k < |r| ensures r[k] in store {
      assert r[k] in multiset(hs);
    }
  }
}
