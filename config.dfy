// The configuration manager of archive/internal/config/config.go: settings
// by key, each with a value, a description, a type name and a required
// flag; reading, writing, listing by section, importing and validating
// them; and the integer parser beside it. Reading and writing the file and
// its JSON or YAML encoding are parameters.
module ConfigStore {
  import opened Wrappers
  import opened StrUtil
  import opened Seqs

  /** The dynamic values a setting holds. `Object` is a JSON object (or a
    * map set by a caller); `AnyMap` is the entries of a nested YAML mapping,
    * which yaml.v2 decodes with keys of any type. */
  datatype Value = Nil | Str(s: string) | Int(i: int) | Float(f: real) | Bool(b: bool) | List(items: seq<Value>)
                 | Object(fields: map<string, Value>) | AnyMap(entries: seq<(Value, Value)>)

  /** Go's `%T` of the value. */
  function TypeName(v: Value): string
  {
    match v
    case Nil => NilType
    case Str(_) => "string"
    case Int(_) => "int"
    case Float(_) => "float64"
    case Bool(_) => "bool"
    case List(_) => "[]interface {}"
    case Object(_) => "map[string]interface {}"
    case AnyMap(_) => "map[interface {}]interface {}"
  }

  const NilType := "<nil>"

  datatype Setting = Setting(value: Value, description: string, typeName: string, required: bool)

  datatype ValidationIssue = ValidationIssue(key: string, severity: string, message: string)

  const SeverityError := "error"
  const SeverityWarning := "warning"
  const RequiredMissingMessage := "Required setting is not set"

  /** Get: the value under the key, or an error naming the key. */
  function Lookup(settings: map<string, Setting>, key: string): (r: Result<Value, string>)
    ensures r.Ok? <==> key in settings
    ensures r.Ok? ==> r.value == settings[key].value
    ensures r.Err? ==> r.error == "configuration key not found: " + key
  {
    if key in settings then Ok(settings[key].value) else Err("configuration key not found: " + key)
  }

  /** Set: an existing setting keeps its description, type and flag; a new
    * one records the type of its first value. */
  function Assign(settings: map<string, Setting>, key: string, value: Value): (r: map<string, Setting>)
    ensures r.Keys == settings.Keys + {key}
    ensures forall k :: k in settings && k != key ==> r[k] == settings[k]
  {
    var setting := if key in settings then settings[key] else Setting(Nil, "", TypeName(value), false);
    settings[key := setting.(value := value)]
  }

  /** A value set is the value read back, and the setting's metadata survives. */
  lemma SetThenGet(settings: map<string, Setting>, key: string, value: Value, other: string)
    ensures Lookup(Assign(settings, key, value), key) == Ok(value)
    ensures other != key ==> Lookup(Assign(settings, key, value), other) == Lookup(settings, other)
    ensures key in settings ==> Assign(settings, key, value)[key].(value := settings[key].value) == settings[key]
    ensures key !in settings ==> Assign(settings, key, value)[key] == Setting(value, "", TypeName(value), false)
  {
  }

  /** Import: each imported key gets a fresh setting of the value alone. */
  function ImportInto(settings: map<string, Setting>, config: map<string, Value>): (r: map<string, Setting>)
    ensures r.Keys == settings.Keys + config.Keys
    ensures forall k :: k in config ==> r[k] == Setting(config[k], "", TypeName(config[k]), false)
    ensures forall k :: k in settings && k !in config ==> r[k] == settings[k]
  {
    settings + map k | k in config :: Setting(config[k], "", TypeName(config[k]), false)
  }

  /** Unlike Set, Import drops what was known about a key: a required
    * setting imported again is no longer required. */
  lemma ImportForgetsMetadata(settings: map<string, Setting>, key: string, value: Value)
    requires key in settings && settings[key].required
    ensures !ImportInto(settings, map[key := value])[key].required
    ensures Assign(settings, key, value)[key].required
  {
  }

  /** List: the section's own keys, those under `section.`; every key for an empty section. */
  predicate InSection(key: string, section: string)
  {
    section == "" || HasPrefix(key, section + ".")
  }

  function Section(settings: map<string, Setting>, section: string): (r: map<string, Setting>)
    ensures forall k :: k in r <==> k in settings && InSection(k, section)
    ensures forall k :: k in r ==> r[k] == settings[k]
  {
    map k | k in settings && InSection(k, section) :: settings[k]
  }

  /** Listing the empty section gives every setting; a section's keys all
    * name it before a dot, and a key outside it is not listed. */
  lemma SectionMeaning(settings: map<string, Setting>, section: string, key: string)
    ensures Section(settings, "") == settings
    ensures key in Section(settings, section) && section != "" ==>
      |key| > |section| && key[..|section|] == section && key[|section|] == '.'
  {
    if key in Section(settings, section) && section != "" {
      assert key[..|section| + 1] == section + ".";
      assert key[..|section|] == (section + ".")[..|section|];
    }
  }

  /** A required setting without a value: an error. */
  predicate Missing(s: Setting)
  {
    s.required && s.value.Nil?
  }

  /** A value whose type is not the recorded one: a warning. */
  predicate Mismatch(s: Setting)
  {
    !s.value.Nil? && s.typeName != "" && TypeName(s.value) != s.typeName
  }

  function ErrorIssue(key: string): ValidationIssue
  {
    ValidationIssue(key, SeverityError, RequiredMissingMessage)
  }

  function WarningIssue(key: string, s: Setting): ValidationIssue
  {
    ValidationIssue(key, SeverityWarning, "Type mismatch: expected " + s.typeName + ", got " + TypeName(s.value))
  }

  /** Every error Validate reports, for the keys in `keys`. */
  ghost function Errors(settings: map<string, Setting>, keys: set<string>): set<ValidationIssue>
  {
    set k | k in keys && k in settings && Missing(settings[k]) :: ErrorIssue(k)
  }

  /** Every warning Validate reports, for the keys in `keys`. */
  ghost function Warnings(settings: map<string, Setting>, keys: set<string>): set<ValidationIssue>
  {
    set k | k in keys && k in settings && Mismatch(settings[k]) :: WarningIssue(k, settings[k])
  }

  /** A setting that is both missing and mismatched cannot exist: a nil
    * value has no type to disagree with. */
  lemma MissingIsNotMismatch(s: Setting)
    ensures !(Missing(s) && Mismatch(s))
  {
  }

  /** Parse: the text `strconv.ParseInt` accepts in the given base, an
    * optional sign and then at least one digit, within 64 bits. */
  function DigitValue(c: char): (d: int)
    ensures -1 <= d < 36
  {
    if '0' <= c <= '9' then c as int - '0' as int
    else if 'a' <= c <= 'z' then c as int - 'a' as int + 10
    else if 'A' <= c <= 'Z' then c as int - 'A' as int + 10
    else -1
  }

  /** The magnitude the digits spell in `base`, if they all are digits of it. */
  function DigitsValue(s: string, base: nat): (r: Option<nat>)
    requires 2 <= base <= 36
  {
    if s == [] then None
    else
      var d := DigitValue(s[|s| - 1]);
      if d < 0 || d >= base then None
      else if |s| == 1 then Some(d)
      else match DigitsValue(s[..|s| - 1], base)
        case None => None
        case Some(v) => Some(v * base + d)
  }

  const MinInt64 := -0x8000_0000_0000_0000
  const MaxInt64 := 0x7FFF_FFFF_FFFF_FFFF

  function ParseIntBase(s: string, base: nat): (r: Option<int>)
    requires 2 <= base <= 36
    ensures r.Some? ==> MinInt64 <= r.value <= MaxInt64
  {
    var negative := |s| > 0 && s[0] == '-';
    var digits := if |s| > 0 && (s[0] == '-' || s[0] == '+') then s[1..] else s;
    match DigitsValue(digits, base)
    case None => None
    case Some(m) =>
      var v: int := if negative then -(m as int) else m;
      if MinInt64 <= v <= MaxInt64 then Some(v) else None
  }

  /** ParseInt: decimal first, then hexadecimal after a leading 0x or 0X. */
  function ParseInt(value: string): (r: Result<int, string>)
    ensures r.Ok? ==> MinInt64 <= r.value <= MaxInt64
    ensures r.Err? ==> r.error == "invalid integer value: " + value
    ensures ParseIntBase(value, 10).Some? ==> r == Ok(ParseIntBase(value, 10).value)
  {
    match ParseIntBase(value, 10)
    case Some(i) => Ok(i)
    case None =>
      if HasPrefix(Lower(value), HexPrefix) then
        match ParseIntBase(value[2..], 16)
        case Some(i) => Ok(i)
        case None => Err("invalid integer value: " + value)
      else Err("invalid integer value: " + value)
  }

  const HexPrefix := "0x"

  /** The digits of `n` in `base`, most significant first. */
  function Digits(n: nat, base: nat): (s: string)
    requires 2 <= base <= 16
    ensures |s| >= 1
  {
    if n < base then [DigitChar(n)] else Digits(n / base, base) + [DigitChar(n % base)]
  }

  function DigitChar(d: nat): char
    requires d < 16
  {
    if d < 10 then ('0' as int + d) as char else ('a' as int + d - 10) as char
  }

  /** The digits of a number spell that number. */
  lemma {:induction false} DigitsRoundTrip(n: nat, base: nat)
    requires 2 <= base <= 16
    ensures DigitsValue(Digits(n, base), base) == Some(n)
    decreases n
  {
    if n < base {
      DigitSingle(n, base);
    } else {
      DigitsRoundTrip(n / base, base);
      DigitsStep(n, base);
    }
  }

  lemma DigitsStep(n: nat, base: nat)
    requires 2 <= base <= 16 && n >= base
    requires DigitsValue(Digits(n / base, base), base) == Some(n / base)
    ensures DigitsValue(Digits(n, base), base) == Some(n)
  {
    var q, r := n / base, n % base;
    DigitCharValue(r);
    DigitsUnfold(n, base);
    DivMod(n, base);
    SnocValue(Digits(q, base), DigitChar(r), base, q, r, n);
  }

  lemma SnocValue(p: string, c: char, base: nat, q: nat, r: nat, n: nat)
    requires 2 <= base <= 36 && DigitsValue(p, base) == Some(q)
    requires DigitValue(c) == r < base && q * base + r == n
    ensures DigitsValue(p + [c], base) == Some(n)
  {
    DigitsValueSnoc(p, c, base);
  }

  lemma DivMod(n: nat, base: nat)
    requires base > 0
    ensures n == n / base * base + n % base
  {
  }

  lemma DigitSingle(n: nat, base: nat)
    requires 2 <= base <= 16 && n < base
    ensures DigitsValue(Digits(n, base), base) == Some(n)
  {
    DigitCharValue(n);
    assert Digits(n, base) == [DigitChar(n)];
  }

  lemma DigitsUnfold(n: nat, base: nat)
    requires 2 <= base <= 16 && n >= base
    ensures Digits(n, base) == Digits(n / base, base) + [DigitChar(n % base)]
  {
  }

  /** One more digit multiplies the value by the base and adds the digit. */
  lemma DigitsValueSnoc(p: string, c: char, base: nat)
    requires 2 <= base <= 36 && DigitsValue(p, base).Some? && 0 <= DigitValue(c) < base
    ensures DigitsValue(p + [c], base) == Some(DigitsValue(p, base).value * base + DigitValue(c))
  {
    assert (p + [c])[..|p|] == p;
  }

  lemma DigitCharValue(d: nat)
    requires d < 16
    ensures DigitValue(DigitChar(d)) == d
  {
  }

  /** Every character of a number's digits is a digit of the base, none a sign. */
  lemma {:induction false} DigitsAreDigits(n: nat, base: nat)
    requires 2 <= base <= 16
    ensures forall i :: 0 <= i < |Digits(n, base)| ==> 0 <= DigitValue(Digits(n, base)[i]) < base
    decreases n
  {
    if n < base {
      DigitCharValue(n);
    } else {
      DigitsAreDigits(n / base, base);
      DigitCharValue(n % base);
    }
  }

  /** A number printed in decimal, with a minus sign when negative. */
  function Decimal(n: int): string
  {
    if n < 0 then "-" + Digits(-n, 10) else Digits(n, 10)
  }

  /** A 64-bit number printed in decimal parses back to itself. */
  lemma DecimalRoundTrip(n: int)
    requires MinInt64 <= n <= MaxInt64
    ensures ParseInt(Decimal(n)) == Ok(n)
  {
    if n < 0 {
      NegativeRoundTrip(n);
    } else {
      DigitsRoundTrip(n, 10);
      DigitsAreDigits(n, 10);
      ParseUnsigned(Digits(n, 10), 10, n);
    }
  }

  lemma NegativeRoundTrip(n: int)
    requires MinInt64 <= n < 0
    ensures ParseInt(Decimal(n)) == Ok(n)
  {
    DigitsRoundTrip(-n, 10);
    ParseSigned(Digits(-n, 10), 10, -n);
  }

  lemma ParseUnsigned(d: string, base: nat, m: nat)
    requires 2 <= base <= 36 && DigitsValue(d, base) == Some(m) && m <= MaxInt64
    requires |d| > 0 && DigitValue(d[0]) >= 0
    ensures ParseIntBase(d, base) == Some(m)
  {
  }

  lemma ParseSigned(d: string, base: nat, m: nat)
    requires 2 <= base <= 36 && DigitsValue(d, base) == Some(m) && m <= -MinInt64
    ensures ParseIntBase("-" + d, base).Some? && ParseIntBase("-" + d, base).value == -(m as int)
  {
    assert ("-" + d)[1..] == d;
  }

  /** A text that is no decimal number but starts with 0x is read in hexadecimal after it. */
  lemma ParseHex(value: string)
    requires ParseIntBase(value, 10).None? && HasPrefix(Lower(value), HexPrefix)
    ensures ParseInt(value) == if ParseIntBase(value[2..], 16).Some? then Ok(ParseIntBase(value[2..], 16).value)
                               else Err("invalid integer value: " + value)
  {
  }

  /** A 64-bit number printed in hexadecimal after 0x, which is no decimal
    * text, parses back to itself. */
  lemma HexRoundTrip(n: nat)
    requires n <= MaxInt64
    ensures ParseInt(HexPrefix + Digits(n, 16)) == Ok(n)
  {
    var d := Digits(n, 16);
    var s := HexPrefix + d;
    DigitsRoundTrip(n, 16);
    DigitsAreDigits(n, 16);
    ParseUnsigned(d, 16, n);
    assert s[2..] == d;
    assert s[1] == 'x';
    NotDecimal(s, 1);
    assert Lower(s)[..2] == HexPrefix;
    ParseHex(s);
  }

  /** A text with a character that is no decimal digit past the sign position is no decimal number. */
  lemma {:induction false} NotDecimal(s: string, i: nat)
    requires 0 < i < |s| && DigitValue(s[i]) >= 10
    ensures ParseIntBase(s, 10).None?
  {
    var digits := if |s| > 0 && (s[0] == '-' || s[0] == '+') then s[1..] else s;
    var j := if |s| > 0 && (s[0] == '-' || s[0] == '+') then i - 1 else i;
    assert digits[j] == s[i];
    BadDigit(digits, 10, j);
  }

  lemma {:induction false} BadDigit(s: string, base: nat, j: nat)
    requires 2 <= base <= 36 && j < |s| && (DigitValue(s[j]) < 0 || DigitValue(s[j]) >= base)
    ensures DigitsValue(s, base).None?
    decreases |s|
  {
    if j < |s| - 1 {
      assert s[..|s| - 1][j] == s[j];
      BadDigit(s[..|s| - 1], base, j);
    }
  }

  class Config {
    var settings: map<string, Setting>
    var file: string

    /** New: an empty store for the file (creating its directory and
      * loading an existing file are left to the caller's Load). */
    constructor(file: string)
      ensures settings == map[] && this.file == file
    {
      settings := map[];
      this.file := file;
    }

    function Get(key: string): (r: Result<Value, string>)
      reads this
      ensures r == Lookup(settings, key)
    {
      Lookup(settings, key)
    }

    method Set(key: string, value: Value) returns (err: Option<string>)
      modifies this
      ensures err.None? && settings == Assign(old(settings), key, value) && file == old(file)
    {
      var setting: Setting;
      if key in settings {
        setting := settings[key];
      } else {
        setting := Setting(Nil, "", TypeName(value), false);
      }
      setting := setting.(value := value);
      settings := settings[key := setting];
      err := None;
    }

    /** List: a copy of the settings in the section, built key by key. */
    method List(section: string) returns (result: map<string, Setting>, err: Option<string>)
      ensures result == Section(settings, section) && err.None?
    {
      result := map[];
      var left := settings.Keys;
      while left != {}
        invariant left <= settings.Keys
        invariant result == Section(map k | k in settings && k !in left :: settings[k], section)
        decreases left
      {
        var key :| key in left;
        if section == "" || HasPrefix(key, section + ".") {
          result := result[key := settings[key]];
        }
        left := left - {key};
      }
      assert (map k | k in settings && k !in left :: settings[k]) == settings;
      err := None;
    }

    /** GetAll: a copy of every setting. */
    method GetAll() returns (result: map<string, Setting>)
      ensures result == settings
    {
      result := map[];
      var left := settings.Keys;
      while left != {}
        invariant left <= settings.Keys
        invariant result == map k | k in settings && k !in left :: settings[k]
        decreases left
      {
        var key :| key in left;
        result := result[key := settings[key]];
        left := left - {key};
      }
      assert (map k | k in settings && k !in left :: settings[k]) == settings;
    }

    /** Load: the file's contents, read and decoded as JSON for a .json file
      * and as YAML otherwise, replace every setting. */
    method Load(read: Result<seq<bv8>, string>, decode: (bool, seq<bv8>) -> Result<map<string, Setting>, string>)
      returns (err: Option<string>)
      modifies this
      ensures read.Err? ==> err == Some("failed to read config file: " + read.error) && settings == old(settings)
      ensures read.Ok? && decode(HasSuffix(file, ".json"), read.value).Err? ==>
        err == Some("failed to parse config file: " + decode(HasSuffix(file, ".json"), read.value).error)
        && settings == old(settings)
      ensures read.Ok? && decode(HasSuffix(file, ".json"), read.value).Ok? ==>
        err.None? && settings == decode(HasSuffix(file, ".json"), read.value).value
      ensures file == old(file)
    {
      if read.Err? {
        return Some("failed to read config file: " + read.error);
      }
      var parsed := decode(HasSuffix(file, ".json"), read.value);
      if parsed.Err? {
        return Some("failed to parse config file: " + parsed.error);
      }
      settings := parsed.value;
      err := None;
    }

    /** Save: the settings encoded as JSON for a .json file and as YAML
      * otherwise, then written; either step's failure is reported. */
    method Save(encode: (bool, map<string, Setting>) -> Result<seq<bv8>, string>, write: seq<bv8> -> Option<string>)
      returns (err: Option<string>)
      ensures encode(HasSuffix(file, ".json"), settings).Err? ==>
        err == Some("failed to format config: " + encode(HasSuffix(file, ".json"), settings).error)
      ensures encode(HasSuffix(file, ".json"), settings).Ok? ==>
        var w := write(encode(HasSuffix(file, ".json"), settings).value);
        err == (if w.Some? then Some("failed to write config file: " + w.value) else None)
    {
      var data := encode(HasSuffix(file, ".json"), settings);
      if data.Err? {
        return Some("failed to format config: " + data.error);
      }
      var w := write(data.value);
      if w.Some? {
        return Some("failed to write config file: " + w.value);
      }
      err := None;
    }

    /** Import: every key of the map is set to a fresh setting of its value. */
    method Import(config: map<string, Value>) returns (err: Option<string>)
      modifies this
      ensures err.None? && settings == ImportInto(old(settings), config) && file == old(file)
    {
      var merged := settings;
      var left := config.Keys;
      while left != {}
        invariant left <= config.Keys
        invariant merged.Keys == settings.Keys + (config.Keys - left)
        invariant forall k :: k in config && k !in left ==> merged[k] == Setting(config[k], "", TypeName(config[k]), false)
        invariant forall k :: k in settings && (k !in config || k in left) ==> merged[k] == settings[k]
        decreases left
      {
        var key :| key in left;
        var value := config[key];
        merged := merged[key := Setting(value, "", TypeName(value), false)];
        left := left - {key};
      }
      assert merged == ImportInto(settings, config);
      settings := merged;
      err := None;
    }

    /** Validate: an error for each required setting without a value, then
      * a warning for each value whose type is not the recorded one; each
      * pass visits the keys in some order. */
    method Validate() returns (issues: seq<ValidationIssue>, err: Option<string>)
      ensures err.None?
      ensures multiset(issues) == multiset(Errors(settings, settings.Keys)) + multiset(Warnings(settings, settings.Keys))
      ensures forall i, j :: 0 <= i < j < |issues| && issues[j].severity == SeverityError ==>
        issues[i].severity == SeverityError
    {
      err := None;
      var errors := RequiredErrors(settings);
      var warnings := TypeWarnings(settings);
      issues := errors + warnings;
    }
  }

  /** Validate's first pass: an error for each required setting without a value. */
  method RequiredErrors(settings: map<string, Setting>) returns (issues: seq<ValidationIssue>)
    ensures multiset(issues) == multiset(Errors(settings, settings.Keys))
    ensures forall i :: 0 <= i < |issues| ==> issues[i].severity == SeverityError
  {
    issues := [];
    var left := settings.Keys;
    while left != {}
      invariant left <= settings.Keys
      invariant multiset(issues) == multiset(Errors(settings, settings.Keys - left))
      invariant forall i :: 0 <= i < |issues| ==> issues[i].severity == SeverityError
      decreases left
    {
      var key :| key in left;
      ErrorsGrow(settings, settings.Keys - left, key);
      assert settings.Keys - (left - {key}) == (settings.Keys - left) + {key};
      if settings[key].required && settings[key].value.Nil? {
        issues := issues + [ErrorIssue(key)];
      }
      left := left - {key};
    }
    assert settings.Keys - left == settings.Keys;
  }

  /** Validate's second pass: a warning for each value whose type is not the recorded one. */
  method TypeWarnings(settings: map<string, Setting>) returns (issues: seq<ValidationIssue>)
    ensures multiset(issues) == multiset(Warnings(settings, settings.Keys))
    ensures forall i :: 0 <= i < |issues| ==> issues[i].severity == SeverityWarning
  {
    issues := [];
    var left := settings.Keys;
    while left != {}
      invariant left <= settings.Keys
      invariant multiset(issues) == multiset(Warnings(settings, settings.Keys - left))
      invariant forall i :: 0 <= i < |issues| ==> issues[i].severity == SeverityWarning
      decreases left
    {
      var key :| key in left;
      WarningsGrow(settings, settings.Keys - left, key);
      assert settings.Keys - (left - {key}) == (settings.Keys - left) + {key};
      var setting := settings[key];
      if setting.value != Nil && setting.typeName != "" {
        var actualType := TypeName(setting.value);
        if actualType != setting.typeName {
          issues := issues + [WarningIssue(key, setting)];
        }
      }
      left := left - {key};
    }
    assert settings.Keys - left == settings.Keys;
  }

  /** The errors for one more key: its own, if it is missing. */
  lemma ErrorsGrow(settings: map<string, Setting>, keys: set<string>, key: string)
    requires key in settings && key !in keys
    ensures multiset(Errors(settings, keys + {key})) ==
      multiset(Errors(settings, keys)) + (if Missing(settings[key]) then multiset{ErrorIssue(key)} else multiset{})
  {
    if Missing(settings[key]) {
      assert Errors(settings, keys + {key}) == Errors(settings, keys) + {ErrorIssue(key)};
      assert ErrorIssue(key) !in Errors(settings, keys);
    } else {
      assert Errors(settings, keys + {key}) == Errors(settings, keys);
    }
  }

  /** The warnings for one more key: its own, if its type disagrees. */
  lemma WarningsGrow(settings: map<string, Setting>, keys: set<string>, key: string)
    requires key in settings && key !in keys
    ensures multiset(Warnings(settings, keys + {key})) ==
      multiset(Warnings(settings, keys))
      + (if Mismatch(settings[key]) then multiset{WarningIssue(key, settings[key])} else multiset{})
  {
    if Mismatch(settings[key]) {
      assert Warnings(settings, keys + {key}) == Warnings(settings, keys) + {WarningIssue(key, settings[key])};
      assert WarningIssue(key, settings[key]) !in Warnings(settings, keys);
    } else {
      assert Warnings(settings, keys + {key}) == Warnings(settings, keys);
    }
  }

  /** Each key has at most one issue of each kind, and a key has an error
    * exactly when it is required and unset. */
  lemma ValidationMeaning(settings: map<string, Setting>, key: string)
    ensures ErrorIssue(key) in Errors(settings, settings.Keys) <==> key in settings && Missing(settings[key])
    ensures |Errors(settings, settings.Keys)| <= |settings.Keys|
  {
    var missing := set k | k in settings.Keys && Missing(settings[k]);
    assert Errors(settings, settings.Keys) == set k | k in missing :: ErrorIssue(k);
    ImageCard(missing);
    assert missing <= settings.Keys;
    SubsetCard(missing, settings.Keys);
  }

  lemma {:induction false} ImageCard(keys: set<string>)
    ensures |set k | k in keys :: ErrorIssue(k)| == |keys|
    decreases |keys|
  {
    if keys != {} {
      var x :| x in keys;
      ImageCard(keys - {x});
      assert (set k | k in keys :: ErrorIssue(k)) == (set k | k in keys - {x} :: ErrorIssue(k)) + {ErrorIssue(x)};
    }
  }
}
