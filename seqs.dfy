// Sequence combinators used to state what a loop over a list produces.
// Each is defined on the last element, so that a loop that has handled
// the prefix s[..i] extends the result by the value for s[i].
module Seqs {
  import opened Wrappers


  function FlatMap<A, B>(s: seq<A>, f: A -> seq<B>): seq<B>
  {
    if s == [] then [] else FlatMap(s[..|s| - 1], f) + f(s[|s| - 1])
  }

  function Filter<A>(s: seq<A>, p: A -> bool): seq<A>
  {
    if s == [] then [] else Filter(s[..|s| - 1], p) + (if p(s[|s| - 1]) then [s[|s| - 1]] else [])
  }

  function CountIf<A>(s: seq<A>, p: A -> bool): nat
  {
    |Filter(s, p)|
  }

  lemma FlatMapSnoc<A, B>(s: seq<A>, x: A, f: A -> seq<B>)
    ensures FlatMap(s + [x], f) == FlatMap(s, f) + f(x)
  {
    assert (s + [x])[..|s|] == s;
  }

  lemma FilterSnoc<A>(s: seq<A>, x: A, p: A -> bool)
    ensures Filter(s + [x], p) == Filter(s, p) + (if p(x) then [x] else [])
  {
    assert (s + [x])[..|s|] == s;
  }

  /** One loop step over `s`: the result for `s[..i + 1]` extends the result for `s[..i]`. */
  lemma FlatMapStep<A, B>(s: seq<A>, i: nat, f: A -> seq<B>)
    requires i < |s|
    ensures FlatMap(s[..i + 1], f) == FlatMap(s[..i], f) + f(s[i])
  {
    assert s[..i + 1] == s[..i] + [s[i]];
    FlatMapSnoc(s[..i], s[i], f);
  }

  lemma FlatMapWhole<A, B>(s: seq<A>, f: A -> seq<B>)
    ensures FlatMap(s[..|s|], f) == FlatMap(s, f)
  {
    assert s[..|s|] == s;
  }

  lemma FilterStep<A>(s: seq<A>, i: nat, p: A -> bool)
    requires i < |s|
    ensures Filter(s[..i + 1], p) == Filter(s[..i], p) + (if p(s[i]) then [s[i]] else [])
  {
    assert s[..i + 1] == s[..i] + [s[i]];
    FilterSnoc(s[..i], s[i], p);
  }

  lemma FilterWhole<A>(s: seq<A>, p: A -> bool)
    ensures Filter(s[..|s|], p) == Filter(s, p)
  {
    assert s[..|s|] == s;
  }

  lemma FlatMapAppend<A, B>(s: seq<A>, t: seq<A>, f: A -> seq<B>)
    ensures FlatMap(s + t, f) == FlatMap(s, f) + FlatMap(t, f)
    decreases |t|
  {
    if t == [] {
      assert s + t == s;
    } else {
      var t' := t[..|t| - 1];
      assert s + t == (s + t') + [t[|t| - 1]];
      FlatMapAppend(s, t', f);
      FlatMapSnoc(s + t', t[|t| - 1], f);
      FlatMapSnoc(t', t[|t| - 1], f);
      assert t == t' + [t[|t| - 1]];
    }
  }

  lemma FlatMapSingle<A, B>(x: A, f: A -> seq<B>)
    ensures FlatMap([x], f) == f(x)
  {
    assert [x][..0] == [];
  }

  lemma FlatMapSplit<A, B>(pre: seq<A>, x: A, post: seq<A>, f: A -> seq<B>)
    ensures FlatMap(pre + ([x] + post), f) == FlatMap(pre, f) + f(x) + FlatMap(post, f)
  {
    FlatMapAppend(pre, [x] + post, f);
    FlatMapAppend([x], post, f);
    FlatMapSingle(x, f);
    ConcatAssoc(FlatMap(pre, f), f(x), FlatMap(post, f));
  }

  /** The image of the element at `i` sits between the images of the parts around it. */
  lemma FlatMapAround<A, B>(s: seq<A>, i: nat, f: A -> seq<B>)
    requires i < |s|
    ensures FlatMap(s, f) == FlatMap(s[..i], f) + f(s[i]) + FlatMap(s[i + 1..], f)
  {
    SplitAt(s, i);
    FlatMapSplitAs(s, s[..i], s[i], s[i + 1..], f);
  }

  lemma SplitAt<A>(s: seq<A>, i: nat)
    requires i < |s|
    ensures s == s[..i] + ([s[i]] + s[i + 1..])
  {
    assert s[i..] == [s[i]] + s[i + 1..];
    assert s == s[..i] + s[i..];
  }

  lemma FlatMapSplitAs<A, B>(s: seq<A>, pre: seq<A>, x: A, post: seq<A>, f: A -> seq<B>)
    requires s == pre + ([x] + post)
    ensures FlatMap(s, f) == FlatMap(pre, f) + f(x) + FlatMap(post, f)
  {
    FlatMapSplit(pre, x, post, f);
  }

  lemma ConcatAssoc<A>(a: seq<A>, b: seq<A>, c: seq<A>)
    ensures a + (b + c) == a + b + c
  {
  }

  lemma {:induction false} FlatMapMember<A, B>(s: seq<A>, f: A -> seq<B>, y: B)
    ensures y in FlatMap(s, f) <==> exists i :: 0 <= i < |s| && y in f(s[i])
  {
    if s != [] {
      var s' := s[..|s| - 1];
      FlatMapMember(s', f, y);
      if y in FlatMap(s', f) {
        var i :| 0 <= i < |s'| && y in f(s'[i]);
        assert s[i] == s'[i];
      }
      if exists i :: 0 <= i < |s| && y in f(s[i]) {
        var i :| 0 <= i < |s| && y in f(s[i]);
        if i < |s'| {
          assert s'[i] == s[i];
        }
      }
    }
  }

  /** The position of the element whose image holds `y`. */
  lemma FlatMapSource<A, B>(s: seq<A>, f: A -> seq<B>, y: B) returns (i: nat)
    requires y in FlatMap(s, f)
    ensures i < |s| && y in f(s[i])
  {
    FlatMapMember(s, f, y);
    i :| 0 <= i < |s| && y in f(s[i]);
  }

  /** A flat map is empty exactly when every image is empty. */
  lemma {:induction false} FlatMapEmpty<A, B>(s: seq<A>, f: A -> seq<B>)
    ensures FlatMap(s, f) == [] <==> forall i :: 0 <= i < |s| ==> f(s[i]) == []
  {
    if s != [] {
      var s' := s[..|s| - 1];
      FlatMapEmpty(s', f);
      assert forall i :: 0 <= i < |s'| ==> s'[i] == s[i];
    }
  }

  lemma {:induction false} FilterMember<A>(s: seq<A>, p: A -> bool, x: A)
    ensures x in Filter(s, p) <==> x in s && p(x)
  {
    if s != [] {
      var s' := s[..|s| - 1];
      FilterMember(s', p, x);
      assert s == s' + [s[|s| - 1]];
    }
  }

  lemma {:induction false} FilterEmpty<A>(s: seq<A>, p: A -> bool)
    ensures Filter(s, p) == [] <==> forall i :: 0 <= i < |s| ==> !p(s[i])
  {
    if s != [] {
      var s' := s[..|s| - 1];
      FilterEmpty(s', p);
      assert forall i :: 0 <= i < |s'| ==> s'[i] == s[i];
    }
  }

  lemma FilterLength<A>(s: seq<A>, p: A -> bool)
    ensures |Filter(s, p)| <= |s|
  {
    if s != [] {
      FilterLength(s[..|s| - 1], p);
    }
  }

  /** A property of every image element holds of every element of the flat map. */
  lemma FlatMapAll<A, B>(s: seq<A>, f: A -> seq<B>, P: B -> bool)
    requires forall i, y :: 0 <= i < |s| && y in f(s[i]) ==> P(y)
    ensures forall y :: y in FlatMap(s, f) ==> P(y)
  {
    forall y | y in FlatMap(s, f) ensures P(y) {
      FlatMapMember(s, f, y);
    }
  }

  predicate Distinct<A(==)>(s: seq<A>)
  {
    forall i, j :: 0 <= i < j < |s| ==> s[i] != s[j]
  }

  lemma DistinctSnoc<A>(s: seq<A>, x: A)
    requires Distinct(s) && x !in s
    ensures Distinct(s + [x])
  {
  }

  /** A list without repetitions has as many distinct elements as entries. */
  lemma {:induction false} DistinctCard<A>(s: seq<A>)
    requires Distinct(s)
    ensures |set x | x in s| == |s|
  {
    if s != [] {
      var rest := s[1..];
      assert Distinct(rest) by {
        forall i, j | 0 <= i < j < |rest| ensures rest[i] != rest[j] {
          assert rest[i] == s[i + 1] && rest[j] == s[j + 1];
        }
      }
      DistinctCard(rest);
      assert (set x | x in s) == (set x | x in rest) + {s[0]};
      assert s[0] !in (set x | x in rest);
    }
  }

  /** The first element whose image is present: the result of a loop that
    * returns on the first element that yields a value. */
  function FirstSome<A, B>(s: seq<A>, f: A -> Option<B>): Option<B>
  {
    if s == [] then None else if f(s[0]).Some? then f(s[0]) else FirstSome(s[1..], f)
  }

  /** FirstSome finds the image of the first element that has one, and
    * nothing when no element has one. */
  lemma {:induction false} FirstSomeSpec<A, B>(s: seq<A>, f: A -> Option<B>)
    ensures FirstSome(s, f).None? <==> forall i :: 0 <= i < |s| ==> f(s[i]).None?
    ensures FirstSome(s, f).Some? ==>
      exists i :: 0 <= i < |s| && f(s[i]) == FirstSome(s, f) && forall j :: 0 <= j < i ==> f(s[j]).None?
  {
    if s != [] && f(s[0]).None? {
      FirstSomeSpec(s[1..], f);
      assert forall i :: 0 < i < |s| ==> s[1..][i - 1] == s[i];
      if FirstSome(s[1..], f).Some? {
        var i :| 0 <= i < |s[1..]| && f(s[1..][i]) == FirstSome(s[1..], f) && forall j :: 0 <= j < i ==> f(s[1..][j]).None?;
        assert f(s[i + 1]) == FirstSome(s, f);
        assert forall j :: 0 <= j < i + 1 ==> f(s[j]).None? by {
          forall j | 0 <= j < i + 1 ensures f(s[j]).None? {
            if j > 0 { assert s[j] == s[1..][j - 1]; }
          }
        }
      }
    }
  }

  /** One loop step: an element without an image is skipped. */
  lemma FirstSomeStep<A, B>(s: seq<A>, i: nat, f: A -> Option<B>)
    requires i < |s|
    ensures FirstSome(s[i..], f) == if f(s[i]).Some? then f(s[i]) else FirstSome(s[i + 1..], f)
  {
    assert s[i..][1..] == s[i + 1..];
  }

  lemma FirstSomeWhole<A, B>(s: seq<A>, f: A -> Option<B>)
    ensures FirstSome(s[0..], f) == FirstSome(s, f)
    ensures FirstSome(s[|s|..], f) == None
  {
    assert s[0..] == s;
  }

  /** A filter that every element passes keeps the whole list. */
  lemma {:induction false} FilterAll<A>(s: seq<A>, p: A -> bool)
    requires forall i :: 0 <= i < |s| ==> p(s[i])
    ensures Filter(s, p) == s
  {
    if s != [] {
      var s' := s[..|s| - 1];
      assert forall i :: 0 <= i < |s'| ==> s'[i] == s[i];
      FilterAll(s', p);
      assert s == s' + [s[|s| - 1]];
    }
  }

  /** Filtering a prefix gives a prefix of the filtered list. */
  lemma {:induction false} FilterPrefix<A>(s: seq<A>, j: nat, p: A -> bool)
    requires j <= |s|
    ensures |Filter(s[..j], p)| <= |Filter(s, p)| && Filter(s[..j], p) == Filter(s, p)[..|Filter(s[..j], p)|]
    decreases |s| - j
  {
    if j < |s| {
      FilterPrefix(s, j + 1, p);
      FilterStep(s, j, p);
    } else {
      assert s[..j] == s;
    }
  }

  /** Whether `x` is listed (a loop over the list that returns on a match). */
  method Has<A(==)>(s: seq<A>, x: A) returns (b: bool)
    ensures b <==> x in s
  {
    var i := 0;
    while i < |s|
      invariant 0 <= i <= |s|
      invariant x !in s[..i]
    {
      if s[i] == x {
        return true;
      }
      assert s[..i + 1] == s[..i] + [s[i]];
      i := i + 1;
    }
    assert s[..i] == s;
    return false;
  }

  /** A counter map bumped once per key, as Go's `m[k]++` does on a map
    * where a missing key reads as 0. */
  function Bump<K>(m: map<K, nat>, k: K): map<K, nat>
  {
    m[k := (if k in m then m[k] else 0) + 1]
  }

  /** The counters after bumping each key of `s` in order. */
  function Tally<K>(s: seq<K>): map<K, nat>
  {
    if s == [] then map[] else Bump(Tally(s[..|s| - 1]), s[|s| - 1])
  }

  lemma TallyStep<K>(s: seq<K>, i: nat)
    requires i < |s|
    ensures Tally(s[..i + 1]) == Bump(Tally(s[..i]), s[i])
  {
    assert s[..i + 1][..i] == s[..i];
  }

  lemma TallySnoc<K>(s: seq<K>, k: K)
    ensures Tally(s + [k]) == Bump(Tally(s), k)
  {
    assert (s + [k])[..|s|] == s;
  }

  /** The tally counts exactly the keys that occur, each by its multiplicity. */
  lemma {:induction false} TallyCounts<K>(s: seq<K>)
    ensures forall k :: k in Tally(s) <==> k in s
    ensures forall k :: k in Tally(s) ==> Tally(s)[k] == multiset(s)[k]
  {
    if s != [] {
      var s' := s[..|s| - 1];
      TallyCounts(s');
      assert s == s' + [s[|s| - 1]];
    }
  }

  /** The sum of a counter map's counts. */
  ghost function Total<K>(m: map<K, nat>): nat
    decreases |m.Keys|
  {
    if m == map[] then 0
    else
      var k :| k in m;
      m[k] + Total(m - {k})
  }

  /** The sum does not depend on which key is taken first. */
  lemma {:induction false} TotalRemove<K>(m: map<K, nat>, k: K)
    requires k in m
    ensures Total(m) == m[k] + Total(m - {k})
    decreases |m.Keys|
  {
    var j :| j in m && Total(m) == m[j] + Total(m - {j});
    if j != k {
      assert (m - {j}).Keys < m.Keys;
      assert (m - {k}).Keys < m.Keys;
      TotalRemove(m - {j}, k);
      TotalRemove(m - {k}, j);
      assert m - {j} - {k} == m - {k} - {j};
    }
  }

  /** Bumping a key adds one to the sum. */
  lemma TotalBump<K>(m: map<K, nat>, k: K)
    ensures Total(Bump(m, k)) == Total(m) + 1
  {
    var b := Bump(m, k);
    TotalRemove(b, k);
    if k in m {
      TotalRemove(m, k);
      assert b - {k} == m - {k};
    } else {
      assert b - {k} == m;
    }
  }

  /** A counter map with `x` added under `k`, a missing key reading as 0. */
  function AddTo<K>(m: map<K, nat>, k: K, x: nat): map<K, nat>
  {
    m[k := (if k in m then m[k] else 0) + x]
  }

  /** Adding to one counter adds to the sum. */
  lemma TotalAddTo<K>(m: map<K, nat>, k: K, x: nat)
    ensures Total(AddTo(m, k, x)) == Total(m) + x
  {
    var b := AddTo(m, k, x);
    TotalRemove(b, k);
    if k in m {
      TotalRemove(m, k);
      assert b - {k} == m - {k};
    } else {
      assert b - {k} == m;
    }
  }

  /** The counts of a tally add up to the number of keys tallied. */
  lemma {:induction false} TotalTally<K>(s: seq<K>)
    ensures Total(Tally(s)) == |s|
  {
    if s != [] {
      TotalTally(s[..|s| - 1]);
      TotalBump(Tally(s[..|s| - 1]), s[|s| - 1]);
    }
  }

  /** The first `n` elements, or all of them when there are fewer. */
  function Take<A>(s: seq<A>, n: nat): (r: seq<A>)
    ensures |r| <= n && |r| <= |s| && r == s[..|r|]
    ensures |s| <= n ==> r == s
  {
    if |s| <= n then s else s[..n]
  }

  /** The elements of a set, each once, in the arbitrary order in which
    * Go ranges over a map's keys. */
  method Enumerate<A(==)>(s: set<A>) returns (r: seq<A>)
    ensures Distinct(r)
    ensures forall x :: x in r <==> x in s
    ensures |r| == |s|
  {
    r := [];
    var left := s;
    while left != {}
      invariant left <= s
      invariant Distinct(r)
      invariant forall x :: x in r <==> x in s - left
      decreases |left|
    {
      var x :| x in left;
      DistinctSnoc(r, x);
      r := r + [x];
      left := left - {x};
    }
    DistinctCard(r);
    assert (set x | x in r) == s;
  }

  lemma SubsetCard<T>(a: set<T>, b: set<T>)
    requires a <= b
    ensures |a| <= |b|
  {
    assert b == a + (b - a);
  }

  /** A `range` loop over a map, in an arbitrary order, that keeps the values passing `p`. */
  method SelectValues<K, V(!new)>(m: map<K, V>, p: V -> bool) returns (r: seq<V>)
    ensures forall v :: v in r <==> exists k :: k in m && m[k] == v && p(v)
    ensures |r| == |Passing(m, p)|
  {
    r := [];
    var left := m.Keys;
    ghost var seen: set<K> := {};
    while left != {}
      invariant SelectedSoFar(m, p, left, seen, r)
      decreases |left|
    {
      var k :| k in left;
      SelectStep(m, p, left, seen, r, k);
      if p(m[k]) {
        r := r + [m[k]];
        seen := seen + {k};
      }
      left := left - {k};
    }
    assert seen == Passing(m, p);
  }

  /** The keys whose values pass `p`. */
  ghost function Passing<K, V>(m: map<K, V>, p: V -> bool): set<K>
  {
    set k | k in m && p(m[k])
  }

  /** The invariant of SelectValues' loop: `seen` are the visited keys whose
    * values pass, and `r` holds their values. */
  ghost predicate SelectedSoFar<K, V(!new)>(m: map<K, V>, p: V -> bool, left: set<K>, seen: set<K>, r: seq<V>)
  {
    && left <= m.Keys
    && seen == (set k | k in m.Keys - left && p(m[k]))
    && |r| == |seen|
    && (forall v :: v in r <==> exists k :: k in seen && m[k] == v)
  }

  lemma SelectStep<K, V(!new)>(m: map<K, V>, p: V -> bool, left: set<K>, seen: set<K>, r: seq<V>, k: K)
    requires SelectedSoFar(m, p, left, seen, r) && k in left
    ensures p(m[k]) ==> SelectedSoFar(m, p, left - {k}, seen + {k}, r + [m[k]])
    ensures !p(m[k]) ==> SelectedSoFar(m, p, left - {k}, seen, r)
    ensures |left - {k}| < |left|
  {
    var visited := (set j | j in m.Keys - (left - {k}) && p(m[j]));
    if p(m[k]) {
      assert visited == seen + {k};
      assert k !in seen;
      forall v | v in r + [m[k]] ensures exists j :: j in seen + {k} && m[j] == v {
        if v !in r {
          assert m[k] == v;
        }
      }
    } else {
      assert visited == seen;
    }
  }
}
