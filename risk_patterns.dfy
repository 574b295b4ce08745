// The risk patterns of QUANT_WW_GO/internal/security/risk/types.go: a
// pattern matches an event when every one of its conditions holds, and a
// condition compares one field of the event with a value. Go's
// `interface{}` values are a datatype whose constructors are the dynamic
// types the fields have; any other dynamic type (a slice, a map or a struct
// reached through the raw data) is `VOther`, named by its type, shown by a
// representation and flagged comparable or not. Go's `==` on two interface
// values is InterfaceEquals, which panics on two values of one
// uncomparable type; MatchesCondition gives the answer wherever that
// comparison does not panic, and MatchesConditionAsWritten adds the panic.
// float64 values are reals and compiled regular expressions are predicates.
module RiskPatterns {
  import opened Wrappers
  import opened StrUtil

  datatype Value =
    | VNil
    | VString(s: string)
    | VInt(i: int)
    | VFloat(x: real)
    | VEventType(name: string)
    | VRiskLevel(level: int)
    | VOther(kind: string, repr: string, comparable: bool)

  datatype RiskEvent = RiskEvent(source: string, eventType: string, severity: int, clientIP: string,
                                 userID: string, requestPath: string, tokenContext: Value,
                                 rawData: map<string, Value>)

  datatype PatternCondition = PatternCondition(field: string, operation: string, value: Value,
                                               regex: Option<string -> bool>)

  datatype Pattern = Pattern(name: string, description: string, conditions: seq<PatternCondition>, riskBoost: int)

  /** The value a condition's field names: a fixed event field, else the raw data entry, else none. */
  function FieldValue(e: RiskEvent, field: string): (r: Option<Value>)
    ensures field !in {"source", "type", "severity", "client_ip", "user_id", "request_path", "token_context"} ==>
      r == (if field in e.rawData then Some(e.rawData[field]) else None)
    ensures field == "source" ==> r == Some(VString(e.source))
    ensures field == "severity" ==> r == Some(VRiskLevel(e.severity))
  {
    match field
    case "source" => Some(VString(e.source))
    case "type" => Some(VEventType(e.eventType))
    case "severity" => Some(VRiskLevel(e.severity))
    case "client_ip" => Some(VString(e.clientIP))
    case "user_id" => Some(VString(e.userID))
    case "request_path" => Some(VString(e.requestPath))
    case "token_context" => Some(e.tokenContext)
    case _ => if field in e.rawData then Some(e.rawData[field]) else None
  }

  /** compareNumeric: a sign for two ints or two floats, 0 for anything else. */
  function CompareNumeric(a: Value, b: Value): (r: int)
    ensures -1 <= r <= 1
    ensures a.VInt? && b.VInt? ==> (r < 0 <==> a.i < b.i) && (r > 0 <==> a.i > b.i)
    ensures a.VFloat? && b.VFloat? ==> (r < 0 <==> a.x < b.x) && (r > 0 <==> a.x > b.x)
    ensures !((a.VInt? && b.VInt?) || (a.VFloat? && b.VFloat?)) ==> r == 0
  {
    if a.VInt? && b.VInt? then (if a.i < b.i then -1 else if a.i > b.i then 1 else 0)
    else if a.VFloat? && b.VFloat? then (if a.x < b.x then -1 else if a.x > b.x then 1 else 0)
    else 0
  }

  /** The bytes UTF-8 takes for one code point. */
  function Utf8Width(c: char): (w: nat)
    ensures 1 <= w <= 4
    ensures w == 1 <==> c as int < 0x80
  {
    if c as int < 0x80 then 1 else if c as int < 0x800 then 2 else if c as int < 0x1_0000 then 3 else 4
  }

  /** Go's `len` of a string: its length in UTF-8 bytes. */
  function Utf8Len(s: string): (n: nat)
    ensures |s| <= n <= 4 * |s|
    ensures (forall i :: 0 <= i < |s| ==> s[i] as int < 0x80) ==> n == |s|
  {
    if s == [] then 0 else Utf8Width(s[0]) + Utf8Len(s[1..])
  }

  /** containsSubstring as written: `None` is the slice-bounds panic when
    * the needle has more bytes than the string. Go compares the first
    * `len(substr)` bytes of `str` with `substr`; since UTF-8 is prefix-free,
    * once the needle's bytes fit, that comparison is the code-point prefix test. */
  function ContainsSubstringAsWritten(str: string, substr: string): (r: Option<bool>)
    ensures r.None? <==> str != "" && substr != "" && str != substr && Utf8Len(substr) > Utf8Len(str)
    ensures r == Some(true) <==>
      str != "" && substr != "" && str != substr && Utf8Len(substr) <= Utf8Len(str) && !HasPrefix(str, substr)
  {
    if str == "" || substr == "" || str == substr then Some(false)
    else if Utf8Len(substr) > Utf8Len(str) then None
    else Some(!HasPrefix(str, substr))
  }

  /** The check the helper's name promises: `substr` occurs in `str`. */
  function ContainsSubstring(str: string, substr: string): (r: bool)
    ensures r <==> exists i :: OccursAt(str, substr, i)
  {
    ContainsIff(str, substr);
    Contains(str, substr)
  }

  /** The helper as written reports a missing substring as present and an
    * occurring one as absent, and panics on a longer needle. */
  lemma ContainsSubstringInverted()
    ensures ContainsSubstringAsWritten("abc", "x") == Some(true) && !ContainsSubstring("abc", "x")
    ensures ContainsSubstringAsWritten("abc", "a") == Some(false) && ContainsSubstring("abc", "a")
    ensures ContainsSubstringAsWritten("a", "abc").None?
  {
    assert OccursAt("abc", "a", 0);
    assert "abc"[1..] == "bc" && "bc"[1..] == "c" && "c"[1..] == "";
    assert !Contains("c", "x") && !Contains("bc", "x") && !Contains("abc", "x");
  }

  /** The panic test counts bytes, not code points: a one-letter string of
    * two bytes holds a two-letter ASCII needle, and a two-letter needle of
    * four bytes does not fit in two ASCII letters. */
  lemma ContainsSubstringCountsBytes()
    ensures ContainsSubstringAsWritten("\U{e9}", "ab") == Some(true)
    ensures ContainsSubstringAsWritten("ab", "\U{e9}\U{e9}").None?
  {
    assert Utf8Len("\U{e9}") == 2 by { assert "\U{e9}"[1..] == ""; }
    assert Utf8Len("ab") == 2 by { assert "ab"[1..] == "b" && "b"[1..] == ""; }
    assert Utf8Len("\U{e9}\U{e9}") == 4 by { assert "\U{e9}\U{e9}"[1..] == "\U{e9}" && "\U{e9}"[1..] == ""; }
  }

  /** matchesCondition; "contains" uses the substring test the helper is named for. */
  function MatchesCondition(e: RiskEvent, c: PatternCondition): (r: bool)
    ensures FieldValue(e, c.field).None? ==> !r
    ensures c.operation !in {"equals", "not_equals", "contains", "regex", "greater_than", "less_than"} ==> !r
    ensures c.operation == "regex" && c.regex.None? ==> !r
    ensures FieldValue(e, c.field).Some? && c.operation == "equals" ==> (r <==> FieldValue(e, c.field).value == c.value)
    ensures FieldValue(e, c.field).Some? && c.operation == "not_equals" ==> (r <==> FieldValue(e, c.field).value != c.value)
    ensures c.operation == "contains" ==>
      (r <==> FieldValue(e, c.field).Some? && FieldValue(e, c.field).value.VString? && c.value.VString?
              && ContainsSubstring(FieldValue(e, c.field).value.s, c.value.s))
  {
    var v := FieldValue(e, c.field);
    if v.None? then false
    else
      match c.operation
      case "equals" => v.value == c.value
      case "not_equals" => v.value != c.value
      case "contains" => v.value.VString? && c.value.VString? && ContainsSubstring(v.value.s, c.value.s)
      case "regex" => v.value.VString? && c.regex.Some? && c.regex.value(v.value.s)
      case "greater_than" => CompareNumeric(v.value, c.value) > 0
      case "less_than" => CompareNumeric(v.value, c.value) < 0
      case _ => false
  }

  /** Go's `==` on two interface values: different dynamic types are
    * unequal, two values of one uncomparable type (a slice, a map) panic at
    * run time (None), and otherwise the values are compared. */
  function InterfaceEquals(a: Value, b: Value): (r: Option<bool>)
    ensures r.None? <==> a.VOther? && b.VOther? && a.kind == b.kind && !(a.comparable && b.comparable)
    ensures r.Some? ==> (r.value <==> a == b)
    ensures a.VOther? != b.VOther? ==> r == Some(false)
  {
    if a.VOther? && b.VOther? && a.kind == b.kind && !(a.comparable && b.comparable) then None
    else Some(a == b)
  }

  /** matchesCondition with Go's comparison panic: "equals" and "not_equals"
    * on two values of one uncomparable type give no result. */
  function MatchesConditionAsWritten(e: RiskEvent, c: PatternCondition): (r: Option<bool>)
    ensures r.None? <==>
      FieldValue(e, c.field).Some? && c.operation in {"equals", "not_equals"}
      && InterfaceEquals(FieldValue(e, c.field).value, c.value).None?
    ensures r.Some? ==> r.value == MatchesCondition(e, c)
  {
    var v := FieldValue(e, c.field);
    if v.Some? && (c.operation == "equals" || c.operation == "not_equals") then
      var eq := InterfaceEquals(v.value, c.value);
      if eq.None? then None
      else if c.operation == "equals" then Some(eq.value) else Some(!eq.value)
    else Some(MatchesCondition(e, c))
  }

  /** Pattern.Matches as written: the loop stops at the first condition
    * that fails, so a condition panics only when every earlier one held. */
  function MatchesAsWritten(cs: seq<PatternCondition>, e: RiskEvent): (r: Option<bool>)
  {
    if cs == [] then Some(true)
    else
      var first := MatchesConditionAsWritten(e, cs[0]);
      if first.None? then None
      else if !first.value then Some(false)
      else MatchesAsWritten(cs[1..], e)
  }

  /** The loop as written answers as AllHold does whenever it answers, and
    * it panics exactly at a condition that panics after conditions that held. */
  lemma {:induction false} MatchesAsWrittenMeaning(cs: seq<PatternCondition>, e: RiskEvent)
    ensures MatchesAsWritten(cs, e).Some? ==> MatchesAsWritten(cs, e).value == AllHold(cs, e)
    ensures MatchesAsWritten(cs, e).None? <==>
      exists i :: 0 <= i < |cs| && MatchesConditionAsWritten(e, cs[i]).None?
                  && forall j :: 0 <= j < i ==> MatchesCondition(e, cs[j])
  {
    if cs != [] {
      MatchesAsWrittenMeaning(cs[1..], e);
      var first := MatchesConditionAsWritten(e, cs[0]);
      if first.None? {
        assert MatchesConditionAsWritten(e, cs[0]).None?;
      } else if !first.value {
        forall i | 0 <= i < |cs| && MatchesConditionAsWritten(e, cs[i]).None?
          ensures exists j :: 0 <= j < i && !MatchesCondition(e, cs[j])
        {
          assert i != 0;
          assert !MatchesCondition(e, cs[0]);
        }
      } else {
        if MatchesAsWritten(cs[1..], e).None? {
          var i :| 0 <= i < |cs[1..]| && MatchesConditionAsWritten(e, cs[1..][i]).None?
                   && forall j :: 0 <= j < i ==> MatchesCondition(e, cs[1..][j]);
          assert MatchesConditionAsWritten(e, cs[i + 1]).None?;
          assert forall j :: 0 <= j < i + 1 ==> MatchesCondition(e, cs[j]) by {
            forall j | 0 <= j < i + 1 ensures MatchesCondition(e, cs[j]) {
              if j > 0 { assert cs[j] == cs[1..][j - 1]; }
            }
          }
        } else {
          forall i | 0 <= i < |cs| && MatchesConditionAsWritten(e, cs[i]).None?
            ensures exists j :: 0 <= j < i && !MatchesCondition(e, cs[j])
          {
            assert i != 0;
            assert cs[1..][i - 1] == cs[i];
            var k :| 0 <= k < i - 1 && !MatchesCondition(e, cs[1..][k]);
            assert cs[1..][k] == cs[k + 1];
          }
        }
      }
    }
  }

  /** Comparing a slice from the raw data with a slice value panics, while
    * two values of one comparable type compare as equal or not. */
  lemma SliceEqualityPanics(e: RiskEvent)
    requires "tags" in e.rawData && e.rawData["tags"] == VOther("[]string", "[a]", false)
    ensures MatchesConditionAsWritten(e, PatternCondition("tags", "equals", VOther("[]string", "[a]", false), None)).None?
    ensures MatchesConditionAsWritten(e, PatternCondition("tags", "not_equals", VOther("[]string", "[b]", false), None)).None?
    ensures MatchesConditionAsWritten(e, PatternCondition("tags", "equals", VString("[a]"), None)) == Some(false)
  {
  }

  /** Pattern.Matches: the conjunction of the conditions, from the first. */
  function Matches(p: Pattern, e: RiskEvent): bool
  {
    AllHold(p.conditions, e)
  }

  function AllHold(cs: seq<PatternCondition>, e: RiskEvent): (r: bool)
  {
    cs == [] || (MatchesCondition(e, cs[0]) && AllHold(cs[1..], e))
  }

  /** A pattern matches exactly when each of its conditions does; one without conditions matches everything. */
  lemma {:induction false} MatchesIff(cs: seq<PatternCondition>, e: RiskEvent)
    ensures AllHold(cs, e) <==> forall i :: 0 <= i < |cs| ==> MatchesCondition(e, cs[i])
  {
    if cs != [] {
      MatchesIff(cs[1..], e);
      assert forall i :: 1 <= i < |cs| ==> cs[1..][i - 1] == cs[i];
    }
  }

  /** Severity is a RiskLevel, so comparing it with an int value never
    * matches: Go's interface comparison sees two different types. */
  lemma SeverityIsNotAnInt(e: RiskEvent, n: int)
    ensures !MatchesCondition(e, PatternCondition("severity", "equals", VInt(n), None))
    ensures !MatchesCondition(e, PatternCondition("severity", "greater_than", VInt(n), None))
  {
  }
}
