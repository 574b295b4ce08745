// The feature analysis of print_ProjectTree_FM.py: classes and functions
// with a docstring become features, typed core, utility or supporting, scored
// for complexity and token impact, validated against their category, and
// summed up per category. The syntax tree is given as a tree of nodes with
// each node's unparsed source text; Python's insertion-ordered dicts are
// association lists.
module FeatureMap {
  import opened Wrappers
  import opened StrUtil
  import opened Seqs

  // ---------------------------------------------------------------------
  // Association lists: a dict that keeps its keys in insertion order.

  type Assoc<V> = seq<(string, V)>

  predicate UniqueKeys<V>(a: Assoc<V>)
  {
    forall i, j :: 0 <= i < j < |a| ==> a[i].0 != a[j].0
  }

  /** `d.get(k, default)`. */
  function Get<V>(a: Assoc<V>, k: string, default: V): V
  {
    if a == [] then default
    else if a[|a| - 1].0 == k then a[|a| - 1].1
    else Get(a[..|a| - 1], k, default)
  }

  predicate HasKey<V>(a: Assoc<V>, k: string)
  {
    exists i :: 0 <= i < |a| && a[i].0 == k
  }

  /** `d[k] = v`: an existing key keeps its place, a new one goes last. */
  function Put<V>(a: Assoc<V>, k: string, v: V): (r: Assoc<V>)
    ensures HasKey(r, k)
    ensures HasKey(a, k) ==> |r| == |a|
    ensures !HasKey(a, k) ==> r == a + [(k, v)]
    ensures forall i :: 0 <= i < |a| ==> r[i].0 == a[i].0
    ensures forall i :: 0 <= i < |a| && a[i].0 != k ==> r[i] == a[i]
    ensures forall i :: 0 <= i < |a| && a[i].0 == k ==> r[i] == (k, v)
  {
    if HasKey(a, k) then
      var r := seq(|a|, i requires 0 <= i < |a| => if a[i].0 == k then (k, v) else a[i]);
      var i :| 0 <= i < |a| && a[i].0 == k;
      assert r[i].0 == k;
      r
    else
      assert (a + [(k, v)])[|a|].0 == k;
      a + [(k, v)]
  }

  /** A missing key reads as the default. */
  lemma {:induction false} GetAbsent<V>(a: Assoc<V>, k: string, default: V)
    requires !HasKey(a, k)
    ensures Get(a, k, default) == default
  {
    if a != [] {
      var init := a[..|a| - 1];
      forall i | 0 <= i < |init|
        ensures init[i].0 != k
      {
        assert init[i] == a[i];
      }
      GetAbsent(init, k, default);
    }
  }

  /** With unique keys, an entry's key reads as its value. */
  lemma {:induction false} GetAt<V>(a: Assoc<V>, i: nat, default: V)
    requires UniqueKeys(a) && i < |a|
    ensures Get(a, a[i].0, default) == a[i].1
  {
    if i < |a| - 1 {
      var init := a[..|a| - 1];
      assert init[i] == a[i];
      GetAt(init, i, default);
    }
  }

  /** Putting keeps the keys unique. */
  lemma PutUnique<V>(a: Assoc<V>, k: string, v: V)
    requires UniqueKeys(a)
    ensures UniqueKeys(Put(a, k, v))
  {
    var r := Put(a, k, v);
    forall i, j | 0 <= i < j < |r|
      ensures r[i].0 != r[j].0
    {
      if j == |a| {
        assert r[j].0 == k && r[i].0 == a[i].0;
      }
    }
  }

  /** With unique keys, a key is read back as written and the others are untouched. */
  lemma PutGet<V>(a: Assoc<V>, k: string, v: V, j: string, default: V)
    requires UniqueKeys(a)
    ensures Get(Put(a, k, v), j, default) == if j == k then v else Get(a, j, default)
  {
    var r := Put(a, k, v);
    PutUnique(a, k, v);
    if j == k {
      var i :| 0 <= i < |r| && r[i].0 == k;
      GetAt(r, i, default);
    } else if HasKey(a, j) {
      var i :| 0 <= i < |a| && a[i].0 == j;
      GetAt(r, i, default);
      GetAt(a, i, default);
    } else {
      GetAbsent(a, j, default);
      GetAbsent(r, j, default);
    }
  }

  // ---------------------------------------------------------------------
  // Syntax trees.

  datatype Kind = ClassDef | FunctionDef | If | While | For | Try
                | Import(names: seq<string>) | ImportFrom(fromModule: Option<string>) | OtherNode

  /** A node: its kind, its name (for definitions), what `ast.get_docstring`
    * gives, the text `ast.unparse` gives, and its children. */
  datatype Node = Node(kind: Kind, name: string, docstring: Option<string>, source: string, children: seq<Node>)

  predicate CountsForComplexity(k: Kind)
  {
    k.If? || k.While? || k.For? || k.Try? || k.FunctionDef?
  }

  /** The nodes `ast.walk` visits, the node itself included, that count for complexity. */
  function Branches(n: Node): nat
    decreases n, 1
  {
    (if CountsForComplexity(n.kind) then 1 else 0) + BranchesOf(n.children)
  }

  function BranchesOf(ns: seq<Node>): nat
    decreases ns, 0
  {
    if ns == [] then 0 else Branches(ns[0]) + BranchesOf(ns[1..])
  }

  /** _calculate_complexity: one plus the counted nodes, capped at 5. */
  function Complexity(n: Node): (c: int)
    ensures 1 <= c <= 5
    ensures c < 5 ==> c == 1 + Branches(n)
    ensures 1 + Branches(n) >= 5 ==> c == 5
  {
    var c := 1 + Branches(n);
    if c < 5 then c else 5
  }

  /** A function counts itself, so its complexity is never below 2. */
  lemma FunctionComplexity(n: Node)
    requires n.kind.FunctionDef?
    ensures Complexity(n) >= 2
  {
  }

  /** The names the node and its descendants import. */
  function Dependencies(n: Node): (r: set<string>)
    ensures n.kind.Import? ==> forall x :: x in n.kind.names ==> x in r
    ensures n.kind.ImportFrom? && n.kind.fromModule.Some? && n.kind.fromModule.value != "" ==> n.kind.fromModule.value in r
    ensures !n.kind.Import? && !n.kind.ImportFrom? && n.children == [] ==> r == {}
    ensures forall c :: c in n.children ==> Dependencies(c) <= r
    decreases n, 1
  {
    var own := match n.kind
      case Import(names) => set x | x in names
      case ImportFrom(m) => if m.Some? && m.value != "" then {m.value} else {}
      case _ => {};
    own + DependenciesOf(n.children)
  }

  function DependenciesOf(ns: seq<Node>): (r: set<string>)
    ensures forall i :: 0 <= i < |ns| ==> Dependencies(ns[i]) <= r
    decreases ns, 0
  {
    if ns == [] then {} else Dependencies(ns[0]) + DependenciesOf(ns[1..])
  }

  /** `len(s.split("\n"))`. */
  function LineCount(s: string): nat
  {
    |Split(s, '\n')|
  }

  /** _estimate_token_impact: 10 per source line and 8 per docstring line. */
  function TokenImpact(n: Node): (r: nat)
    ensures r >= 10
    ensures n.docstring.None? ==> r == 10 * LineCount(n.source)
  {
    var docLines := if n.docstring.Some? && n.docstring.value != "" then LineCount(n.docstring.value) else 0;
    LineCount(n.source) * 10 + docLines * 8
  }

  /** The impact counts the lines by their newlines. */
  lemma TokenImpactLines(n: Node)
    ensures TokenImpact(n) == 10 * (CountChar(n.source, '\n') + 1)
      + (if n.docstring.Some? && n.docstring.value != "" then 8 * (CountChar(n.docstring.value, '\n') + 1) else 0)
    ensures TokenImpact(n) >= 10
  {
    SplitPieces(n.source, '\n');
    if n.docstring.Some? {
      SplitPieces(n.docstring.value, '\n');
    }
  }

  const Core := "core"
  const Supporting := "supporting"
  const Utility := "utility"

  /** _is_utility_function. */
  function IsUtilityFunction(n: Node): (r: bool)
    ensures r ==> n.kind.FunctionDef? && |n.name| > 0
    ensures n.kind.FunctionDef? && |n.name| > 0 && n.name[0] == '_' ==> r
  {
    n.kind.FunctionDef? && (HasPrefix(n.name, "_") || HasPrefix(n.name, "util_") || HasPrefix(n.name, "helper_"))
  }

  /** _determine_feature_type. */
  function FeatureType(n: Node): (t: string)
    ensures t == Core <==> n.kind.ClassDef?
    ensures t == Utility <==> IsUtilityFunction(n)
    ensures t == Supporting <==> !n.kind.ClassDef? && !IsUtilityFunction(n)
  {
    if n.kind.ClassDef? then Core else if IsUtilityFunction(n) then Utility else Supporting
  }

  // ---------------------------------------------------------------------
  // Categories and validation.

  /** A category; its validation rules (never consulted) are left out. */
  datatype FeatureCategory = FeatureCategory(
    name: string,
    description: string,
    priority: int,
    tokenAllocation: map<string, int>,
    requiredElements: set<string>)

  /** The outcome of validate_feature. */
  datatype Verdict = Valid | MissingElements(missing: set<string>) | ExceedsAllocation

  /** validate_feature, given the keys of the feature's data and its
    * token_impact entry, if any. */
  function ValidateFeature(c: FeatureCategory, keys: set<string>, tokenImpact: Option<int>): (v: Verdict)
    ensures v.MissingElements? <==> !(c.requiredElements <= keys)
    ensures v.MissingElements? ==> v.missing == c.requiredElements - keys && v.missing != {}
    ensures v.ExceedsAllocation? <==> (c.requiredElements <= keys && "max" in c.tokenAllocation
      && (if tokenImpact.Some? then tokenImpact.value else 0) > c.tokenAllocation["max"])
  {
    var missing := c.requiredElements - keys;
    DifferenceEmpty(c.requiredElements, keys);
    if missing != {} then MissingElements(missing)
    else
      var impact := if tokenImpact.Some? then tokenImpact.value else 0;
      if "max" in c.tokenAllocation && impact > c.tokenAllocation["max"] then ExceedsAllocation
      else Valid
  }

  lemma DifferenceEmpty(a: set<string>, b: set<string>)
    ensures a - b == {} <==> a <= b
  {
    if a - b == {} {
      forall e | e in a
        ensures e in b
      {
        assert e !in a - b;
      }
    }
  }

  /** The message validate_feature returns; `repr` is Python's text for a set. */
  function VerdictMessage(v: Verdict, repr: set<string> -> string): (r: string)
    ensures r == ValidMessage <==> v.Valid?
    ensures v.MissingElements? ==> HasPrefix(r, MissingMessage) && r[|MissingMessage|..] == repr(v.missing)
    ensures r == ExceedsMessage <==> v.ExceedsAllocation?
  {
    match v
    case Valid => ValidMessage
    case MissingElements(m) => ConcatPrefix(MissingMessage, repr(m)); MissingMessage + repr(m)
    case ExceedsAllocation => ExceedsMessage
  }

  const ValidMessage := "Valid feature"
  const MissingMessage := "Missing required elements: "
  const ExceedsMessage := "Exceeds token allocation"

  /** The default categories of AnalysisConfiguration. */
  function DefaultCategories(): (cs: map<string, FeatureCategory>)
    ensures cs.Keys == {Core, Supporting, Utility}
    ensures "max" in cs[Core].tokenAllocation && "max" in cs[Supporting].tokenAllocation && "max" in cs[Utility].tokenAllocation
    ensures cs[Core].tokenAllocation["max"] == 3000 && cs[Core].requiredElements == {"description", "dependencies"}
    ensures cs[Supporting].tokenAllocation["max"] == 2000 && cs[Supporting].requiredElements == {"description"}
    ensures cs[Utility].tokenAllocation["max"] == 1000 && cs[Utility].requiredElements == {}
  {
    map[
      Core := FeatureCategory("Core Features", "Essential system functionalities", 1,
        map["max" := 3000, "per_feature" := 500], {"description", "dependencies"}),
      Supporting := FeatureCategory("Supporting Features", "Enhancement functionalities", 2,
        map["max" := 2000, "per_feature" := 300], {"description"}),
      Utility := FeatureCategory("Utility Features", "Helper functionalities", 3,
        map["max" := 1000, "per_feature" := 200], {})]
  }

  /** The keys of the data analyze_node validates. */
  const FeatureKeys := {"name", "description", "module_path", "type", "complexity", "dependencies", "token_impact"}

  /** With the default categories nothing is ever missing: a feature is valid
    * exactly when its impact is within its category's maximum. */
  lemma DefaultValidity(t: string, impact: nat)
    requires t in DefaultCategories()
    ensures ValidateFeature(DefaultCategories()[t], FeatureKeys, Some(impact)).Valid?
      <==> impact <= (if t == Core then 3000 else if t == Supporting then 2000 else 1000)
  {
    var cs := DefaultCategories();
    assert cs[t].requiredElements <= FeatureKeys;
  }

  // ---------------------------------------------------------------------
  // Features and the summary.

  datatype Feature = Feature(
    name: string,
    description: string,
    modulePath: string,
    featureType: string,
    complexity: int,
    dependencies: set<string>,
    tokenImpact: nat,
    validationStatus: bool)

  /** An entry of a category list in the summary. */
  datatype Entry = Entry(name: string, description: string, complexity: int, tokenImpact: nat, validationStatus: bool)

  /** The summary; its per-category parts are maps, as their key order is
    * only a matter of display. */
  datatype Summary = Summary(
    categories: map<string, seq<Entry>>,
    totalFeatures: nat,
    validFeatures: nat,
    validationMessages: Assoc<seq<string>>,
    totalImpact: nat,
    byCategory: map<string, nat>)

  function EntryOf(f: Feature): Entry
  {
    Entry(f.name, f.description, f.complexity, f.tokenImpact, f.validationStatus)
  }

  /** One feature added to the summary. */
  function Account(s: Summary, f: Feature): Summary
  {
    var listed := if f.featureType in s.categories then s.categories[f.featureType] else [];
    s.(categories := s.categories[f.featureType := listed + [EntryOf(f)]],
       totalFeatures := s.totalFeatures + 1,
       validFeatures := s.validFeatures + (if f.validationStatus then 1 else 0),
       totalImpact := s.totalImpact + f.tokenImpact,
       byCategory := AddTo(s.byCategory, f.featureType, f.tokenImpact))
  }

  /** The summary after accounting for the features in order. */
  function SummarizeFrom(s: Summary, fs: seq<Feature>): Summary
  {
    if fs == [] then s else Account(SummarizeFrom(s, fs[..|fs| - 1]), fs[|fs| - 1])
  }

  function EmptySummary(messages: Assoc<seq<string>>): Summary
  {
    Summary(map[], 0, 0, messages, 0, map[])
  }

  function ImpactOf(fs: seq<Feature>): nat
  {
    if fs == [] then 0 else ImpactOf(fs[..|fs| - 1]) + fs[|fs| - 1].tokenImpact
  }

  function ValidOf(fs: seq<Feature>): seq<Feature>
  {
    Filter(fs, (f: Feature) => f.validationStatus)
  }

  /** The totals of the summary: every feature once, the valid ones among
    * them, the impacts added up, and the per-category impacts adding up to
    * the total. */
  lemma {:induction false} SummaryTotals(messages: Assoc<seq<string>>, fs: seq<Feature>)
    ensures SummarizeFrom(EmptySummary(messages), fs).totalFeatures == |fs|
    ensures SummarizeFrom(EmptySummary(messages), fs).validFeatures == |ValidOf(fs)| <= |fs|
    ensures SummarizeFrom(EmptySummary(messages), fs).totalImpact == ImpactOf(fs)
    ensures SummarizeFrom(EmptySummary(messages), fs).validationMessages == messages
    ensures Total(SummarizeFrom(EmptySummary(messages), fs).byCategory) == ImpactOf(fs)
    ensures SummarizeFrom(EmptySummary(messages), fs).categories.Keys
      == SummarizeFrom(EmptySummary(messages), fs).byCategory.Keys == set f | f in fs :: f.featureType
  {
    FilterLength(fs, (f: Feature) => f.validationStatus);
    if fs != [] {
      var init := fs[..|fs| - 1];
      SummaryTotals(messages, init);
      var s := SummarizeFrom(EmptySummary(messages), init);
      TotalAddTo(s.byCategory, fs[|fs| - 1].featureType, fs[|fs| - 1].tokenImpact);
      assert fs == init + [fs[|fs| - 1]];
    }
  }

  /** A category's list holds, in order, the entries of the features of that type. */
  lemma {:induction false} CategoryLists(fs: seq<Feature>, t: string)
    ensures var cs := SummarizeFrom(EmptySummary([]), fs).categories;
      (if t in cs then cs[t] else []) == FlatMap(fs, (f: Feature) => if f.featureType == t then [EntryOf(f)] else [])
  {
    if fs != [] {
      CategoryLists(fs[..|fs| - 1], t);
    }
  }

  lemma {:induction false} SummarizeAppend(s: Summary, a: seq<Feature>, b: seq<Feature>)
    ensures SummarizeFrom(s, a + b) == SummarizeFrom(SummarizeFrom(s, a), b)
  {
    if b == [] {
      assert a + b == a;
    } else {
      var b' := b[..|b| - 1];
      var f := b[|b| - 1];
      assert (a + b)[..|a + b| - 1] == a + b';
      SummarizeAppend(s, a, b');
      calc {
        SummarizeFrom(s, a + b);
        Account(SummarizeFrom(s, a + b'), f);
        Account(SummarizeFrom(SummarizeFrom(s, a), b'), f);
      }
    }
  }

  function Values<V>(a: Assoc<V>): seq<V>
  {
    if a == [] then [] else Values(a[..|a| - 1]) + [a[|a| - 1].1]
  }

  function ModuleFeatures(entry: (string, Assoc<Feature>)): seq<Feature>
  {
    Values(entry.1)
  }

  /** The features of all modules, in the order the summary visits them. */
  function AllFeatures(features: Assoc<Assoc<Feature>>): seq<Feature>
  {
    FlatMap(features, ModuleFeatures)
  }

  // ---------------------------------------------------------------------
  // The analyzer.

  class FeatureAnalyzer {
    var categories: map<string, FeatureCategory>
    /** Module path to feature name to feature. */
    var features: Assoc<Assoc<Feature>>
    /** Module path to the messages for its invalid features. */
    var validationResults: Assoc<seq<string>>

    constructor(categories: map<string, FeatureCategory>)
      ensures this.categories == categories && features == [] && validationResults == []
    {
      this.categories := categories;
      features := [];
      validationResults := [];
    }

    /** The feature data analyze_node builds for a node with a docstring. */
    static function FeatureOf(c: FeatureCategory, n: Node, modulePath: string, doc: string): (f: Feature)
      ensures f.name == n.name && f.modulePath == modulePath && f.featureType == FeatureType(n)
      ensures f.description == Split(doc, '\n')[0] && f.complexity == Complexity(n)
      ensures f.dependencies == Dependencies(n) && f.tokenImpact == TokenImpact(n)
      ensures f.validationStatus <==> ValidateFeature(c, FeatureKeys, Some(TokenImpact(n))).Valid?
    {
      Feature(n.name, Split(doc, '\n')[0], modulePath, FeatureType(n), Complexity(n), Dependencies(n),
        TokenImpact(n), ValidateFeature(c, FeatureKeys, Some(TokenImpact(n))).Valid?)
    }

    /** analyze_node: a node without a docstring, or whose type has no
      * category, gives nothing and changes nothing; otherwise the feature is
      * stored under its module and name, and an invalid one is reported. */
    method AnalyzeNode(n: Node, modulePath: string, repr: set<string> -> string) returns (r: Option<Feature>)
      modifies this
      ensures categories == old(categories)
      ensures (n.docstring.None? || n.docstring == Some("") || FeatureType(n) !in categories) ==>
        r.None? && features == old(features) && validationResults == old(validationResults)
      ensures r.Some? <==> n.docstring.Some? && n.docstring.value != "" && FeatureType(n) in categories
      ensures r.Some? ==> (
        var c := categories[FeatureType(n)];
        var verdict := ValidateFeature(c, FeatureKeys, Some(TokenImpact(n)));
        r.value == FeatureOf(c, n, modulePath, n.docstring.value)
        && features == Put(old(features), modulePath, Put(Get(old(features), modulePath, []), n.name, r.value))
        && validationResults == if verdict.Valid? then old(validationResults)
           else Put(old(validationResults), modulePath, Get(old(validationResults), modulePath, [])
             + ["Feature '" + n.name + "': " + VerdictMessage(verdict, repr)]))
    {
      if n.docstring.None? || n.docstring.value == "" {
        return None;
      }
      var t := FeatureType(n);
      if t !in categories {
        return None;
      }
      var c := categories[t];
      var verdict := ValidateFeature(c, FeatureKeys, Some(TokenImpact(n)));
      var f := FeatureOf(c, n, modulePath, n.docstring.value);
      if !verdict.Valid? {
        var messages := Get(validationResults, modulePath, []);
        validationResults := Put(validationResults, modulePath,
          messages + ["Feature '" + n.name + "': " + VerdictMessage(verdict, repr)]);
      }
      var moduleFeatures := Get(features, modulePath, []);
      features := Put(features, modulePath, Put(moduleFeatures, n.name, f));
      r := Some(f);
    }

    /** get_feature_summary. */
    method GetFeatureSummary() returns (s: Summary)
      ensures s == SummarizeFrom(EmptySummary(validationResults), AllFeatures(features))
    {
      s := EmptySummary(validationResults);
      var i := 0;
      while i < |features|
        invariant 0 <= i <= |features|
        invariant s == SummarizeFrom(EmptySummary(validationResults), FlatMap(features[..i], ModuleFeatures))
      {
        FlatMapStep(features, i, ModuleFeatures);
        SummarizeAppend(EmptySummary(validationResults), FlatMap(features[..i], ModuleFeatures), ModuleFeatures(features[i]));
        s := SummarizeModule(s, features[i].1);
        i := i + 1;
      }
      FlatMapWhole(features, ModuleFeatures);
    }
  }

  /** The inner loop of get_feature_summary: one module's features. */
  method SummarizeModule(s0: Summary, moduleFeatures: Assoc<Feature>) returns (s: Summary)
    ensures s == SummarizeFrom(s0, Values(moduleFeatures))
  {
    s := s0;
    var j := 0;
    while j < |moduleFeatures|
      invariant 0 <= j <= |moduleFeatures|
      invariant s == SummarizeFrom(s0, Values(moduleFeatures[..j]))
    {
      ValuesStep(moduleFeatures, j);
      s := Account(s, moduleFeatures[j].1);
      j := j + 1;
    }
    assert moduleFeatures[..j] == moduleFeatures;
  }

  lemma ValuesStep(a: Assoc<Feature>, j: nat)
    requires j < |a|
    ensures Values(a[..j + 1]) == Values(a[..j]) + [a[j].1]
    ensures forall s: Summary :: SummarizeFrom(s, Values(a[..j]) + [a[j].1]) == Account(SummarizeFrom(s, Values(a[..j])), a[j].1)
  {
    assert a[..j + 1][..j] == a[..j];
    forall s: Summary
      ensures SummarizeFrom(s, Values(a[..j]) + [a[j].1]) == Account(SummarizeFrom(s, Values(a[..j])), a[j].1)
    {
      assert (Values(a[..j]) + [a[j].1])[..|Values(a[..j])|] == Values(a[..j]);
    }
  }
}
