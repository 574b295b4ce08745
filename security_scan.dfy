// The project security scanner of the Python helper: five detectors run
// over a directory tree, their findings are concatenated, summarised and
// turned into a secure/insecure verdict; a response's header set is mapped
// to a fixed presence table; the command line is dispatched.
//
// The file system is an observed value (the os.walk steps and, per path,
// the stat mode, the UTF-8 read, the libmagic description and the SHA-256
// digest); regular expressions are an abstract matcher returning the start
// offsets `re.finditer` would yield.
module SecurityScan {
  import opened Wrappers
  import opened StrUtil
  import opened Seqs

  datatype SecurityIssue = SecurityIssue(
    issueType: string,
    description: string,
    severity: string,
    filePath: string,
    lineNumber: int,
    recommendation: string)

  /** What opening a file as UTF-8 text and reading it gives. */
  datatype TextRead = Text(content: string) | Undecodable | ReadFailed

  /** One (root, dirs, files) triple yielded by os.walk. */
  datatype WalkStep = WalkStep(root: string, dirs: seq<string>, files: seq<string>)

  /** The tree under the scanned path as the detectors observe it. A path
    * missing from `mode` fails os.stat, one missing from `fileType` makes
    * libmagic raise, one missing from `digest` fails the binary read. */
  datatype Tree = Tree(
    walk: seq<WalkStep>,
    mode: map<string, nat>,
    text: map<string, TextRead>,
    fileType: map<string, string>,
    digest: map<string, string>,
    existing: set<string>)

  /** `re.finditer(pattern, text)` reduced to the start offsets of its matches. */
  type Matcher = (string, string) -> seq<nat>

  /** A named regular expression, in the order the scanner's dicts list them. */
  datatype NamedPattern = NamedPattern(name: string, regex: string)

  datatype Scanner = Scanner(malwareSignatures: seq<string>, sensitivePatterns: seq<NamedPattern>)

  datatype Summary = Summary(
    totalIssues: int,
    severityCounts: map<string, int>,
    issueTypes: map<string, int>,
    recommendations: int)

  datatype ScanResult = ScanResult(timestamp: string, issues: seq<SecurityIssue>, summary: Summary, isSecure: bool)

  const SevCritical := "critical"
  const SevHigh := "high"
  const SevMedium := "medium"
  const SevLow := "low"
  const PermissionsType := "excessive_permissions"
  const MalwareType := "malware_detected"
  const SensitiveType := "sensitive_information"

  const SensitivePatterns: seq<NamedPattern> := [
    NamedPattern("api_key", @"(?i)(api[_-]key|apikey|secret)[""\']?\s*(?::|=)\s*[""\']([^""\']+)"),
    NamedPattern("password", @"(?i)(password|passwd|pwd)[""\']?\s*(?::|=)\s*[""\']([^""\']+)"),
    NamedPattern("private_key", @"-----BEGIN (?:RSA )?PRIVATE KEY-----"),
    NamedPattern("token", @"(?i)(access_token|auth_token|jwt)[""\']?\s*(?::|=)\s*[""\']([^""\']+)")
  ]

  const VulnerabilityPatterns: seq<NamedPattern> := [
    NamedPattern("sql_injection", @"(?i)(?:execute|exec)\s*\(\s*[""\']?\s*SELECT"),
    NamedPattern("xss", @"(?i)innerHTML\s*=|document\.write\s*\("),
    NamedPattern("command_injection", @"(?i)(?:system|exec|eval)\s*\("),
    NamedPattern("path_traversal", @"\.\./")
  ]

  const DependencyFiles: seq<string> := ["requirements.txt", "package.json", "Gemfile", "go.mod", "pom.xml"]

  const SeverityKeys: set<string> := {SevCritical, SevHigh, SevMedium, SevLow}

  /** The scanner as constructed: no malware signatures are loaded. */
  function NewScanner(): (s: Scanner)
    ensures s.malwareSignatures == []
    ensures s.sensitivePatterns == SensitivePatterns && |s.sensitivePatterns| == 4
    ensures && s.sensitivePatterns[0].name == "api_key" && s.sensitivePatterns[1].name == "password"
            && s.sensitivePatterns[2].name == "private_key" && s.sensitivePatterns[3].name == "token"
    ensures s.sensitivePatterns[2].regex == "-----BEGIN (?:RSA )?PRIVATE KEY-----"
  {
    Scanner([], SensitivePatterns)
  }

  /** `os.path.join(root, name)`. */
  function PathJoin(root: string, name: string): string
  {
    if HasPrefix(name, "/") then name
    else if root == [] || HasSuffix(root, "/") then root + name
    else root + "/" + name
  }

  function ReadText(t: Tree, path: string): TextRead
  {
    if path in t.text then t.text[path] else ReadFailed
  }

  function Min(a: int, b: int): int { if a <= b then a else b }

  /** `content.count('\n', 0, start) + 1`; the slice end is clamped to the text. */
  function LineNumber(content: string, start: nat): int
  {
    CountChar(content[..Min(start, |content|)], '\n') + 1
  }

  lemma {:induction false} CountCharPrefix(s: string, k: nat, c: char)
    requires k <= |s|
    ensures CountChar(s[..k], c) <= CountChar(s, c)
    decreases |s|
  {
    if k > 0 {
      assert s[..k][1..] == s[1..][..k - 1];
      CountCharPrefix(s[1..], k - 1, c);
    }
  }

  /** A reported line number names one of the lines of the file: it lies
    * between 1 and the number of pieces the text splits into at '\n'. */
  lemma LineNumberInRange(content: string, start: nat)
    ensures 1 <= LineNumber(content, start) <= |Split(content, '\n')|
    ensures start <= |content| ==> LineNumber(content, start) == CountChar(content[..start], '\n') + 1
  {
    CountCharPrefix(content, Min(start, |content|), '\n');
    SplitPieces(content, '\n');
  }

  // ---- structure: permissions ----

  function PermissionIssue(path: string): SecurityIssue
  {
    SecurityIssue(PermissionsType, "File has excessive permissions: " + path, SevMedium,
      path, 0, "Restrict file permissions to minimum required")
  }

  /** `st_mode & 0o777 == 0o777`: the low nine permission bits are all set. */
  predicate WorldWritable(mode: nat)
  {
    mode % 512 == 511
  }

  function ItemIssues(t: Tree, path: string): seq<SecurityIssue>
  {
    if path in t.mode && WorldWritable(t.mode[path]) then [PermissionIssue(path)] else []
  }

  function ItemF(t: Tree, root: string): string -> seq<SecurityIssue>
  {
    (name: string) => ItemIssues(t, PathJoin(root, name))
  }

  function StepStructure(t: Tree, st: WalkStep): seq<SecurityIssue>
  {
    FlatMap(st.dirs + st.files, ItemF(t, st.root))
  }

  function StepStructureF(t: Tree): WalkStep -> seq<SecurityIssue>
  {
    (st: WalkStep) => StepStructure(t, st)
  }

  function StructureIssues(t: Tree): seq<SecurityIssue>
  {
    FlatMap(t.walk, StepStructureF(t))
  }

  /** The permission checks of one os.walk step, over `dirs + files`. */
  method ScanStepStructure(t: Tree, step: WalkStep) returns (issues: seq<SecurityIssue>)
    ensures issues == StepStructure(t, step)
  {
    var items := step.dirs + step.files;
    issues := [];
    var j := 0;
    while j < |items|
      invariant 0 <= j <= |items|
      invariant issues == FlatMap(items[..j], ItemF(t, step.root))
    {
      var found := ScanItem(t, PathJoin(step.root, items[j]));
      ItemStep(t, step.root, items, j, issues, found);
      issues := issues + found;
      j := j + 1;
    }
    ItemWhole(t, step, issues);
  }

  /** The permission check of one path. */
  method ScanItem(t: Tree, path: string) returns (found: seq<SecurityIssue>)
    ensures found == ItemIssues(t, path)
  {
    found := [];
    if path in t.mode && WorldWritable(t.mode[path]) {
      found := [PermissionIssue(path)];
    }
  }

  lemma ItemStep(t: Tree, root: string, items: seq<string>, j: nat, acc: seq<SecurityIssue>, found: seq<SecurityIssue>)
    requires j < |items|
    requires acc == FlatMap(items[..j], ItemF(t, root))
    requires found == ItemIssues(t, PathJoin(root, items[j]))
    ensures acc + found == FlatMap(items[..j + 1], ItemF(t, root))
  {
    FlatMapStep(items, j, ItemF(t, root));
  }

  lemma ItemWhole(t: Tree, step: WalkStep, acc: seq<SecurityIssue>)
    requires acc == FlatMap((step.dirs + step.files)[..|step.dirs + step.files|], ItemF(t, step.root))
    ensures acc == StepStructure(t, step)
  {
    FlatMapWhole(step.dirs + step.files, ItemF(t, step.root));
  }

  /** `_scan_project_structure`. */
  method ScanProjectStructure(t: Tree) returns (issues: seq<SecurityIssue>)
    ensures issues == StructureIssues(t)
  {
    ghost var f := StepStructureF(t);
    issues := [];
    var i := 0;
    while i < |t.walk|
      invariant 0 <= i <= |t.walk|
      invariant issues == FlatMap(t.walk[..i], f)
    {
      var found := ScanStepStructure(t, t.walk[i]);
      issues := issues + found;
      FlatMapStep(t.walk, i, f);
      i := i + 1;
    }
    FlatMapWhole(t.walk, f);
  }

  /** What a structure finding is: a medium excessive_permissions issue
    * about a path whose permission bits are all set. */
  predicate IsPermissionFinding(t: Tree, y: SecurityIssue)
  {
    y.issueType == PermissionsType && y.severity == SevMedium
    && y.filePath in t.mode && WorldWritable(t.mode[y.filePath]) && y.lineNumber == 0
  }

  lemma StepStructureFindings(t: Tree, st: WalkStep, y: SecurityIssue)
    requires y in StepStructure(t, st)
    ensures IsPermissionFinding(t, y)
  {
    var items := st.dirs + st.files;
    var k := FlatMapSource(items, ItemF(t, st.root), y);
    ItemFinding(t, PathJoin(st.root, items[k]), y);
  }

  lemma ItemFinding(t: Tree, path: string, y: SecurityIssue)
    requires y in ItemIssues(t, path)
    ensures IsPermissionFinding(t, y)
  {
  }

  /** Every structure finding is a permission finding. */
  lemma StructureIssuesAreMedium(t: Tree)
    ensures forall y :: y in StructureIssues(t) ==> IsPermissionFinding(t, y)
  {
    forall y | y in StructureIssues(t) ensures IsPermissionFinding(t, y) {
      var i := FlatMapSource(t.walk, StepStructureF(t), y);
      StepStructureFindings(t, t.walk[i], y);
    }
  }

  // ---- dependency manifests ----

  function DependencyCheck(t: Tree, path: string): string -> seq<SecurityIssue>
  {
    // An existing manifest is not checked against any database.
    (depFile: string) => if PathJoin(path, depFile) in t.existing then [] else []
  }

  function DependencyIssues(t: Tree, path: string): seq<SecurityIssue>
  {
    FlatMap(DependencyFiles, DependencyCheck(t, path))
  }

  lemma DependencyScanEmpty(t: Tree, path: string)
    ensures DependencyIssues(t, path) == []
  {
    FlatMapEmpty(DependencyFiles, DependencyCheck(t, path));
  }

  // ---- regular-expression detectors: secrets and vulnerabilities ----

  datatype Detector = Secrets | Vulnerabilities

  function MatchIssue(d: Detector, name: string, path: string, line: int): SecurityIssue
  {
    match d
    case Secrets =>
      SecurityIssue(SensitiveType, "Found potential " + name + " in file", SevHigh, path, line,
        "Remove " + name + " from source code and use environment variables or secure secrets management")
    case Vulnerabilities =>
      SecurityIssue("potential_" + name, "Potential " + name + " vulnerability detected", SevHigh, path, line,
        "Review and fix potential " + name + " vulnerability")
  }

  function MatchF(d: Detector, name: string, path: string, content: string): nat -> seq<SecurityIssue>
  {
    (start: nat) => [MatchIssue(d, name, path, LineNumber(content, start))]
  }

  function PatternF(d: Detector, m: Matcher, path: string, content: string): NamedPattern -> seq<SecurityIssue>
  {
    (p: NamedPattern) => FlatMap(m(p.regex, content), MatchF(d, p.name, path, content))
  }

  /** Files the secrets scan does not open. */
  predicate SkippedBySecrets(name: string)
  {
    HasPrefix(name, ".") || HasSuffix(name, ".jpg") || HasSuffix(name, ".png")
    || HasSuffix(name, ".gif") || HasSuffix(name, ".pdf")
  }

  /** Files the vulnerability scan opens. */
  predicate ReadByVulnerabilities(name: string)
  {
    HasSuffix(name, ".js") || HasSuffix(name, ".py") || HasSuffix(name, ".php")
    || HasSuffix(name, ".rb") || HasSuffix(name, ".go")
  }

  function Patterns(sc: Scanner, d: Detector): seq<NamedPattern>
  {
    match d
    case Secrets => sc.sensitivePatterns
    case Vulnerabilities => VulnerabilityPatterns
  }

  predicate Opens(d: Detector, name: string)
  {
    match d
    case Secrets => !SkippedBySecrets(name)
    case Vulnerabilities => ReadByVulnerabilities(name)
  }

  /** Issues for one file: nothing unless the detector opens it and it
    * decodes; otherwise every match of every pattern, patterns in order. */
  function FileMatches(sc: Scanner, d: Detector, m: Matcher, t: Tree, root: string, name: string): seq<SecurityIssue>
  {
    var path := PathJoin(root, name);
    if !Opens(d, name) then []
    else match ReadText(t, path)
      case Text(content) => FlatMap(Patterns(sc, d), PatternF(d, m, path, content))
      case _ => []
  }

  function FileMatchesF(sc: Scanner, d: Detector, m: Matcher, t: Tree, root: string): string -> seq<SecurityIssue>
  {
    (name: string) => FileMatches(sc, d, m, t, root, name)
  }

  function StepMatchesF(sc: Scanner, d: Detector, m: Matcher, t: Tree): WalkStep -> seq<SecurityIssue>
  {
    (st: WalkStep) => FlatMap(st.files, FileMatchesF(sc, d, m, t, st.root))
  }

  function MatchIssues(sc: Scanner, d: Detector, m: Matcher, t: Tree): seq<SecurityIssue>
  {
    FlatMap(t.walk, StepMatchesF(sc, d, m, t))
  }

  lemma MatchStep(d: Detector, name: string, path: string, content: string, starts: seq<nat>, n: nat)
    requires n < |starts|
    ensures FlatMap(starts[..n + 1], MatchF(d, name, path, content))
      == FlatMap(starts[..n], MatchF(d, name, path, content)) + [MatchIssue(d, name, path, LineNumber(content, starts[n]))]
  {
    FlatMapStep(starts, n, MatchF(d, name, path, content));
  }

  /** The issues of one pattern over one decoded file, match by match. */
  method ScanPattern(d: Detector, m: Matcher, path: string, content: string, p: NamedPattern)
    returns (issues: seq<SecurityIssue>)
    ensures issues == PatternF(d, m, path, content)(p)
  {
    ghost var f := MatchF(d, p.name, path, content);
    var starts := m(p.regex, content);
    issues := [];
    var n := 0;
    while n < |starts|
      invariant 0 <= n <= |starts|
      invariant issues == FlatMap(starts[..n], f)
    {
      MatchStep(d, p.name, path, content, starts, n);
      issues := issues + [MatchIssue(d, p.name, path, LineNumber(content, starts[n]))];
      n := n + 1;
    }
    FlatMapWhole(starts, f);
  }

  /** The issues of one open, decoded file, pattern by pattern. */
  method ScanFileContent(sc: Scanner, d: Detector, m: Matcher, path: string, content: string)
    returns (issues: seq<SecurityIssue>)
    ensures issues == FlatMap(Patterns(sc, d), PatternF(d, m, path, content))
  {
    ghost var f := PatternF(d, m, path, content);
    var patterns := Patterns(sc, d);
    issues := [];
    var k := 0;
    while k < |patterns|
      invariant 0 <= k <= |patterns|
      invariant issues == FlatMap(patterns[..k], f)
    {
      var found := ScanPattern(d, m, path, content, patterns[k]);
      issues := issues + found;
      FlatMapStep(patterns, k, f);
      k := k + 1;
    }
    FlatMapWhole(patterns, f);
  }

  /** The issues of one file of a walk step. */
  method ScanFileMatches(sc: Scanner, d: Detector, m: Matcher, t: Tree, root: string, name: string)
    returns (issues: seq<SecurityIssue>)
    ensures issues == FileMatches(sc, d, m, t, root, name)
  {
    issues := [];
    if Opens(d, name) {
      var path := PathJoin(root, name);
      var read := ReadText(t, path);
      if read.Text? {
        issues := ScanFileContent(sc, d, m, path, read.content);
      }
    }
  }

  /** One os.walk step of a regular-expression detector. */
  method ScanStepMatches(sc: Scanner, d: Detector, m: Matcher, t: Tree, step: WalkStep)
    returns (issues: seq<SecurityIssue>)
    ensures issues == StepMatchesF(sc, d, m, t)(step)
  {
    issues := [];
    var j := 0;
    while j < |step.files|
      invariant 0 <= j <= |step.files|
      invariant issues == FlatMap(step.files[..j], FileMatchesF(sc, d, m, t, step.root))
    {
      var found := ScanFileMatches(sc, d, m, t, step.root, step.files[j]);
      FileMatchesStep(sc, d, m, t, step.root, step.files, j, issues, found);
      issues := issues + found;
      j := j + 1;
    }
    FileMatchesWhole(sc, d, m, t, step, issues);
  }

  lemma FileMatchesStep(sc: Scanner, d: Detector, m: Matcher, t: Tree, root: string, files: seq<string>, j: nat,
                        acc: seq<SecurityIssue>, found: seq<SecurityIssue>)
    requires j < |files|
    requires acc == FlatMap(files[..j], FileMatchesF(sc, d, m, t, root))
    requires found == FileMatches(sc, d, m, t, root, files[j])
    ensures acc + found == FlatMap(files[..j + 1], FileMatchesF(sc, d, m, t, root))
  {
    FlatMapStep(files, j, FileMatchesF(sc, d, m, t, root));
  }

  lemma FileMatchesWhole(sc: Scanner, d: Detector, m: Matcher, t: Tree, step: WalkStep, acc: seq<SecurityIssue>)
    requires acc == FlatMap(step.files[..|step.files|], FileMatchesF(sc, d, m, t, step.root))
    ensures acc == StepMatchesF(sc, d, m, t)(step)
  {
    FlatMapWhole(step.files, FileMatchesF(sc, d, m, t, step.root));
  }

  /** `_scan_sensitive_info` (d = Secrets) and `_scan_vulnerabilities`
    * (d = Vulnerabilities). */
  method ScanMatches(sc: Scanner, d: Detector, m: Matcher, t: Tree) returns (issues: seq<SecurityIssue>)
    ensures issues == MatchIssues(sc, d, m, t)
  {
    ghost var f := StepMatchesF(sc, d, m, t);
    issues := [];
    var i := 0;
    while i < |t.walk|
      invariant 0 <= i <= |t.walk|
      invariant issues == FlatMap(t.walk[..i], f)
    {
      var found := ScanStepMatches(sc, d, m, t, t.walk[i]);
      issues := issues + found;
      FlatMapStep(t.walk, i, f);
      i := i + 1;
    }
    FlatMapWhole(t.walk, f);
  }

  /** Which issue a match of one pattern yields. */
  ghost predicate IsMatchIssue(d: Detector, names: seq<string>, y: SecurityIssue)
  {
    y.severity == SevHigh && y.lineNumber >= 1 &&
    exists k :: 0 <= k < |names| && y == MatchIssue(d, names[k], y.filePath, y.lineNumber)
  }

  function Names(ps: seq<NamedPattern>): (r: seq<string>)
    ensures |r| == |ps| && forall k :: 0 <= k < |ps| ==> r[k] == ps[k].name
  {
    if ps == [] then [] else [ps[0].name] + Names(ps[1..])
  }

  lemma PatternIssuesAreHigh(d: Detector, m: Matcher, path: string, content: string, names: seq<string>, p: NamedPattern)
    requires p.name in names
    ensures forall y :: y in PatternF(d, m, path, content)(p) ==> IsMatchIssue(d, names, y)
  {
    var starts := m(p.regex, content);
    var f := MatchF(d, p.name, path, content);
    var k :| 0 <= k < |names| && names[k] == p.name;
    forall y | y in FlatMap(starts, f) ensures IsMatchIssue(d, names, y) {
      var n := FlatMapSource(starts, f, y);
      LineNumberInRange(content, starts[n]);
      MatchIssueIs(d, names, k, path, LineNumber(content, starts[n]));
    }
  }

  lemma MatchIssueIs(d: Detector, names: seq<string>, k: nat, path: string, line: int)
    requires k < |names| && line >= 1
    ensures IsMatchIssue(d, names, MatchIssue(d, names[k], path, line))
  {
    var y := MatchIssue(d, names[k], path, line);
    assert y.filePath == path && y.lineNumber == line && y.severity == SevHigh by {
      match d
      case Secrets =>
      case Vulnerabilities =>
    }
    assert 0 <= k < |names| && y == MatchIssue(d, names[k], y.filePath, y.lineNumber);
  }

  lemma FileIssuesAreHigh(sc: Scanner, d: Detector, m: Matcher, t: Tree, root: string, name: string)
    ensures forall y :: y in FileMatches(sc, d, m, t, root, name) ==> IsMatchIssue(d, Names(Patterns(sc, d)), y)
  {
    var ps := Patterns(sc, d);
    var path := PathJoin(root, name);
    if Opens(d, name) && ReadText(t, path).Text? {
      var content := ReadText(t, path).content;
      var P := (y: SecurityIssue) => IsMatchIssue(d, Names(ps), y);
      forall k | 0 <= k < |ps| ensures forall y :: y in PatternF(d, m, path, content)(ps[k]) ==> P(y) {
        assert Names(ps)[k] == ps[k].name;
        PatternIssuesAreHigh(d, m, path, content, Names(ps), ps[k]);
      }
      FlatMapAll(ps, PatternF(d, m, path, content), P);
    }
  }

  /** Every regular-expression finding is a high-severity issue of the
    * detector's kind, named after one of its patterns, on a line >= 1. */
  lemma MatchIssuesAreHigh(sc: Scanner, d: Detector, m: Matcher, t: Tree)
    ensures forall y :: y in MatchIssues(sc, d, m, t) ==> IsMatchIssue(d, Names(Patterns(sc, d)), y)
  {
    var P := (y: SecurityIssue) => IsMatchIssue(d, Names(Patterns(sc, d)), y);
    forall i | 0 <= i < |t.walk| ensures forall y :: y in StepMatchesF(sc, d, m, t)(t.walk[i]) ==> P(y) {
      var st := t.walk[i];
      forall j | 0 <= j < |st.files| ensures forall y :: y in FileMatchesF(sc, d, m, t, st.root)(st.files[j]) ==> P(y) {
        FileIssuesAreHigh(sc, d, m, t, st.root, st.files[j]);
      }
      FlatMapAll(st.files, FileMatchesF(sc, d, m, t, st.root), P);
    }
    FlatMapAll(t.walk, StepMatchesF(sc, d, m, t), P);
  }

  /** A file the detector does not open, or one that does not decode, adds nothing. */
  lemma UnreadFilesYieldNothing(sc: Scanner, d: Detector, m: Matcher, t: Tree, root: string, name: string)
    requires !Opens(d, name) || !ReadText(t, PathJoin(root, name)).Text?
    ensures FileMatches(sc, d, m, t, root, name) == []
  {
  }

  // ---- malware ----

  function MalwareIssue(path: string): SecurityIssue
  {
    SecurityIssue(MalwareType, "Potential malware detected: " + path, SevCritical, path, 0,
      "Remove malicious file immediately")
  }

  /** libmagic descriptions the malware scan treats as safe. */
  predicate SafeFileType(description: string)
  {
    var lower := Lower(description);
    Contains(lower, "text") || Contains(lower, "image") || Contains(lower, "empty")
  }

  function FileMalware(sc: Scanner, t: Tree, path: string): seq<SecurityIssue>
  {
    if path !in t.fileType || SafeFileType(t.fileType[path]) || path !in t.digest then []
    else if t.digest[path] in sc.malwareSignatures then [MalwareIssue(path)]
    else []
  }

  function FileMalwareF(sc: Scanner, t: Tree, root: string): string -> seq<SecurityIssue>
  {
    (name: string) => FileMalware(sc, t, PathJoin(root, name))
  }

  function StepMalwareF(sc: Scanner, t: Tree): WalkStep -> seq<SecurityIssue>
  {
    (st: WalkStep) => FlatMap(st.files, FileMalwareF(sc, t, st.root))
  }

  function MalwareIssues(sc: Scanner, t: Tree): seq<SecurityIssue>
  {
    FlatMap(t.walk, StepMalwareF(sc, t))
  }

  method ScanStepMalware(sc: Scanner, t: Tree, step: WalkStep) returns (issues: seq<SecurityIssue>)
    ensures issues == StepMalwareF(sc, t)(step)
  {
    ghost var f := FileMalwareF(sc, t, step.root);
    issues := [];
    var j := 0;
    while j < |step.files|
      invariant 0 <= j <= |step.files|
      invariant issues == FlatMap(step.files[..j], f)
    {
      var path := PathJoin(step.root, step.files[j]);
      var found := ScanFileMalware(sc, t, path);
      MalwareStep(sc, t, step.root, step.files, j, issues, found);
      issues := issues + found;
      j := j + 1;
    }
    MalwareWhole(sc, t, step, issues);
  }

  /** The check of one file: its libmagic type, then its digest. */
  method ScanFileMalware(sc: Scanner, t: Tree, path: string) returns (found: seq<SecurityIssue>)
    ensures found == FileMalware(sc, t, path)
  {
    found := [];
    if path in t.fileType && !SafeFileType(t.fileType[path]) && path in t.digest {
      if t.digest[path] in sc.malwareSignatures {
        found := [MalwareIssue(path)];
      }
    }
  }

  lemma MalwareStep(sc: Scanner, t: Tree, root: string, files: seq<string>, j: nat,
                    acc: seq<SecurityIssue>, found: seq<SecurityIssue>)
    requires j < |files|
    requires acc == FlatMap(files[..j], FileMalwareF(sc, t, root))
    requires found == FileMalware(sc, t, PathJoin(root, files[j]))
    ensures acc + found == FlatMap(files[..j + 1], FileMalwareF(sc, t, root))
  {
    FlatMapStep(files, j, FileMalwareF(sc, t, root));
  }

  lemma MalwareWhole(sc: Scanner, t: Tree, step: WalkStep, acc: seq<SecurityIssue>)
    requires acc == FlatMap(step.files[..|step.files|], FileMalwareF(sc, t, step.root))
    ensures acc == StepMalwareF(sc, t)(step)
  {
    FlatMapWhole(step.files, FileMalwareF(sc, t, step.root));
  }

  /** `_scan_malware`. */
  method ScanMalware(sc: Scanner, t: Tree) returns (issues: seq<SecurityIssue>)
    ensures issues == MalwareIssues(sc, t)
  {
    ghost var f := StepMalwareF(sc, t);
    issues := [];
    var i := 0;
    while i < |t.walk|
      invariant 0 <= i <= |t.walk|
      invariant issues == FlatMap(t.walk[..i], f)
    {
      var found := ScanStepMalware(sc, t, t.walk[i]);
      issues := issues + found;
      FlatMapStep(t.walk, i, f);
      i := i + 1;
    }
    FlatMapWhole(t.walk, f);
  }

  /** What a malware finding is: the critical issue about a file of an
    * unsafe type whose digest is a known signature. */
  predicate IsMalwareFinding(sc: Scanner, t: Tree, y: SecurityIssue)
  {
    y == MalwareIssue(y.filePath) && y.filePath in t.fileType && !SafeFileType(t.fileType[y.filePath])
    && y.filePath in t.digest && t.digest[y.filePath] in sc.malwareSignatures
  }

  lemma FileMalwareFinding(sc: Scanner, t: Tree, path: string, y: SecurityIssue)
    requires y in FileMalware(sc, t, path)
    ensures IsMalwareFinding(sc, t, y)
  {
    assert y == MalwareIssue(path);
  }

  lemma StepMalwareFindings(sc: Scanner, t: Tree, st: WalkStep, y: SecurityIssue)
    requires y in StepMalwareF(sc, t)(st)
    ensures IsMalwareFinding(sc, t, y)
  {
    var k := FlatMapSource(st.files, FileMalwareF(sc, t, st.root), y);
    FileMalwareFinding(sc, t, PathJoin(st.root, st.files[k]), y);
  }

  /** Every malware finding is one. */
  lemma MalwareNeedsSignature(sc: Scanner, t: Tree)
    ensures forall y :: y in MalwareIssues(sc, t) ==> IsMalwareFinding(sc, t, y)
  {
    forall y | y in MalwareIssues(sc, t) ensures IsMalwareFinding(sc, t, y) {
      var i := FlatMapSource(t.walk, StepMalwareF(sc, t), y);
      StepMalwareFindings(sc, t, t.walk[i], y);
    }
  }

  lemma StepMalwareNone(sc: Scanner, t: Tree, st: WalkStep)
    requires sc.malwareSignatures == []
    ensures StepMalwareF(sc, t)(st) == []
  {
    forall j | 0 <= j < |st.files| ensures FileMalwareF(sc, t, st.root)(st.files[j]) == [] {
      FileMalwareNone(sc, t, PathJoin(st.root, st.files[j]));
    }
    FlatMapEmpty(st.files, FileMalwareF(sc, t, st.root));
  }

  lemma FileMalwareNone(sc: Scanner, t: Tree, path: string)
    requires sc.malwareSignatures == []
    ensures FileMalware(sc, t, path) == []
  {
  }

  /** With an empty signature list, as the scanner is constructed, no file
    * is ever reported. */
  lemma NoSignaturesNoMalware(sc: Scanner, t: Tree)
    requires sc.malwareSignatures == []
    ensures MalwareIssues(sc, t) == []
  {
    forall i | 0 <= i < |t.walk| ensures StepMalwareF(sc, t)(t.walk[i]) == [] {
      StepMalwareNone(sc, t, t.walk[i]);
    }
    FlatMapEmpty(t.walk, StepMalwareF(sc, t));
  }

  // ---- summary ----

  function CountSeverity(issues: seq<SecurityIssue>, severity: string): (n: nat)
    ensures n <= |issues|
  {
    if issues == [] then 0
    else CountSeverity(issues[..|issues| - 1], severity) + (if issues[|issues| - 1].severity == severity then 1 else 0)
  }

  function CountType(issues: seq<SecurityIssue>, issueType: string): (n: nat)
    ensures n <= |issues|
    ensures n > 0 <==> exists i :: 0 <= i < |issues| && issues[i].issueType == issueType
  {
    if issues == [] then 0
    else
      var n := CountType(issues[..|issues| - 1], issueType) + (if issues[|issues| - 1].issueType == issueType then 1 else 0);
      assert forall i :: 0 <= i < |issues| - 1 ==> issues[..|issues| - 1][i] == issues[i];
      n
  }

  function CountRecommended(issues: seq<SecurityIssue>): (n: nat)
    ensures n <= |issues|
  {
    if issues == [] then 0
    else CountRecommended(issues[..|issues| - 1]) + (if issues[|issues| - 1].recommendation != [] then 1 else 0)
  }

  function TypesOf(issues: seq<SecurityIssue>): set<string>
  {
    set i | 0 <= i < |issues| :: issues[i].issueType
  }

  predicate KnownSeverities(issues: seq<SecurityIssue>)
  {
    forall i :: 0 <= i < |issues| ==> issues[i].severity in SeverityKeys
  }

  lemma CountStep(issues: seq<SecurityIssue>, i: nat)
    requires i < |issues|
    ensures forall sv :: (CountSeverity(issues[..i + 1], sv)
      == CountSeverity(issues[..i], sv) + (if issues[i].severity == sv then 1 else 0))
    ensures forall ty :: (CountType(issues[..i + 1], ty)
      == CountType(issues[..i], ty) + (if issues[i].issueType == ty then 1 else 0))
    ensures CountRecommended(issues[..i + 1])
      == CountRecommended(issues[..i]) + (if issues[i].recommendation != [] then 1 else 0)
    ensures TypesOf(issues[..i + 1]) == TypesOf(issues[..i]) + {issues[i].issueType}
    ensures KnownSeverities(issues[..i + 1]) <==> KnownSeverities(issues[..i]) && issues[i].severity in SeverityKeys
  {
    var p, q := issues[..i], issues[..i + 1];
    assert q[..i] == p;
    assert forall k :: 0 <= k < i ==> q[k] == p[k];
  }

  lemma KnownSeveritiesStep(issues: seq<SecurityIssue>, i: nat)
    requires i < |issues| && KnownSeverities(issues[..i]) && issues[i].severity in SeverityKeys
    ensures KnownSeverities(issues[..i + 1])
  {
    CountStep(issues, i);
  }

  lemma PrefixWhole(issues: seq<SecurityIssue>)
    ensures issues[..|issues|] == issues
  {
  }

  /** The `severity_counts` dict: each of the four keys with its count. */
  function SeverityMap(issues: seq<SecurityIssue>): (r: map<string, int>)
    ensures r.Keys == SeverityKeys
    ensures forall sv :: sv in r ==> r[sv] == CountSeverity(issues, sv)
  {
    map sv | sv in SeverityKeys :: CountSeverity(issues, sv)
  }

  /** The `issue_types` dict: each type that occurs with its count. */
  function TypeMap(issues: seq<SecurityIssue>): (r: map<string, int>)
    ensures r.Keys == TypesOf(issues)
    ensures forall ty :: ty in r ==> r[ty] == CountType(issues, ty)
  {
    map ty | ty in TypesOf(issues) :: CountType(issues, ty)
  }

  lemma SeverityMapStep(issues: seq<SecurityIssue>, i: nat, counts: map<string, int>)
    requires i < |issues| && counts == SeverityMap(issues[..i]) && issues[i].severity in counts
    ensures counts[issues[i].severity := counts[issues[i].severity] + 1] == SeverityMap(issues[..i + 1])
  {
    CountStep(issues, i);
  }

  lemma TypeMapStep(issues: seq<SecurityIssue>, i: nat)
    requires i < |issues|
    ensures TypeMap(issues[..i + 1]) == TypeMap(issues[..i])[issues[i].issueType :=
      (if issues[i].issueType in TypeMap(issues[..i]) then TypeMap(issues[..i])[issues[i].issueType] else 0) + 1]
  {
    var ty := issues[i].issueType;
    var a, b := TypeMap(issues[..i]), TypeMap(issues[..i + 1]);
    TypeMapStepParts(issues, i);
    MapUpdated(a, b, ty, (if ty in a then a[ty] else 0) + 1);
  }

  lemma TypeMapStepParts(issues: seq<SecurityIssue>, i: nat)
    requires i < |issues|
    ensures var ty, a, b := issues[i].issueType, TypeMap(issues[..i]), TypeMap(issues[..i + 1]);
      b.Keys == a.Keys + {ty}
      && b[ty] == (if ty in a then a[ty] else 0) + 1
      && forall k :: k in a && k != ty ==> b[k] == a[k]
  {
    CountStep(issues, i);
    assert issues[i].issueType !in TypeMap(issues[..i]) ==> CountType(issues[..i], issues[i].issueType) == 0;
  }

  lemma MapUpdated<K, V>(a: map<K, V>, b: map<K, V>, k: K, v: V)
    requires b.Keys == a.Keys + {k} && k in b && b[k] == v
    requires forall x :: x in a && x != k ==> b[x] == a[x]
    ensures b == a[k := v]
  {
  }

  lemma InitialCounts()
    ensures SeverityMap([]) == map[SevCritical := 0, SevHigh := 0, SevMedium := 0, SevLow := 0]
  {
  }

  /** One pass of the counting loop: a KeyError for a severity outside the
    * four keys, otherwise both counters bumped. */
  method CountIssue(issues: seq<SecurityIssue>, i: nat, severityCounts: map<string, int>, issueTypes: map<string, int>)
    returns (r: Result<(map<string, int>, map<string, int>), string>)
    requires i < |issues| && KnownSeverities(issues[..i])
    requires severityCounts == SeverityMap(issues[..i]) && issueTypes == TypeMap(issues[..i])
    ensures r.Err? <==> issues[i].severity !in SeverityKeys
    ensures r.Err? ==> !KnownSeverities(issues)
    ensures r.Ok? ==> KnownSeverities(issues[..i + 1]) && r.value == (SeverityMap(issues[..i + 1]), TypeMap(issues[..i + 1]))
  {
    var issue := issues[i];
    if issue.severity !in severityCounts {
      assert issues[i].severity !in SeverityKeys;
      return Err("KeyError: " + issue.severity);
    }
    KnownSeveritiesStep(issues, i);
    SeverityMapStep(issues, i, severityCounts);
    TypeMapStep(issues, i);
    var seen := if issue.issueType in issueTypes then issueTypes[issue.issueType] else 0;
    var bySeverity := severityCounts[issue.severity := severityCounts[issue.severity] + 1];
    var byType := issueTypes[issue.issueType := seen + 1];
    assert bySeverity == SeverityMap(issues[..i + 1]) && byType == TypeMap(issues[..i + 1]);
    r := Ok((bySeverity, byType));
  }

  /** The counting pass of `_generate_summary`: it bumps the severity and
    * type counters and raises KeyError on a severity outside the four keys. */
  method CountIssues(issues: seq<SecurityIssue>) returns (r: Result<(map<string, int>, map<string, int>), string>)
    ensures r.Err? <==> !KnownSeverities(issues)
    ensures r.Ok? ==> r.value == (SeverityMap(issues), TypeMap(issues))
  {
    var severityCounts := map[SevCritical := 0, SevHigh := 0, SevMedium := 0, SevLow := 0];
    InitialCounts();
    var issueTypes: map<string, int> := map[];
    var i := 0;
    while i < |issues|
      invariant 0 <= i <= |issues|
      invariant KnownSeverities(issues[..i])
      invariant severityCounts == SeverityMap(issues[..i])
      invariant issueTypes == TypeMap(issues[..i])
    {
      var counted := CountIssue(issues, i, severityCounts, issueTypes);
      if counted.Err? {
        return counted;
      }
      severityCounts, issueTypes := counted.value.0, counted.value.1;
      i := i + 1;
    }
    PrefixWhole(issues);
    r := Ok((severityCounts, issueTypes));
  }

  /** The recommendation count of `_generate_summary`. */
  method CountRecommendations(issues: seq<SecurityIssue>) returns (n: int)
    ensures n == CountRecommended(issues)
  {
    n := 0;
    var k := 0;
    while k < |issues|
      invariant 0 <= k <= |issues|
      invariant n == CountRecommended(issues[..k])
    {
      CountStep(issues, k);
      if issues[k].recommendation != [] {
        n := n + 1;
      }
      k := k + 1;
    }
    PrefixWhole(issues);
  }

  /** `_generate_summary`. */
  method GenerateSummary(issues: seq<SecurityIssue>) returns (r: Result<Summary, string>)
    ensures r.Err? <==> !KnownSeverities(issues)
    ensures r.Ok? ==> r.value.totalIssues == |issues|
    ensures r.Ok? ==> (r.value.severityCounts.Keys == SeverityKeys
      && forall sv :: sv in SeverityKeys ==> r.value.severityCounts[sv] == CountSeverity(issues, sv))
    ensures r.Ok? ==> (r.value.issueTypes.Keys == TypesOf(issues)
      && forall ty :: ty in TypesOf(issues) ==> r.value.issueTypes[ty] == CountType(issues, ty))
    ensures r.Ok? ==> r.value.recommendations == CountRecommended(issues)
  {
    var counted := CountIssues(issues);
    match counted {
      case Err(e) =>
        r := Err(e);
      case Ok(counters) =>
        var recommended := CountRecommendations(issues);
        r := Ok(Summary(|issues|, counters.0, counters.1, recommended));
    }
  }

  /** A seq of distinct keys summed over a counting function. */
  function SumTypeCounts(issues: seq<SecurityIssue>, keys: seq<string>): int
  {
    if keys == [] then 0 else CountType(issues, keys[0]) + SumTypeCounts(issues, keys[1..])
  }

  function SumSeverityCounts(issues: seq<SecurityIssue>, keys: seq<string>): int
  {
    if keys == [] then 0 else CountSeverity(issues, keys[0]) + SumSeverityCounts(issues, keys[1..])
  }

  lemma {:induction false} SumTypeCountsSnoc(issues: seq<SecurityIssue>, x: SecurityIssue, keys: seq<string>)
    requires forall a, b :: 0 <= a < b < |keys| ==> keys[a] != keys[b]
    ensures SumTypeCounts(issues + [x], keys) == SumTypeCounts(issues, keys) + (if x.issueType in keys then 1 else 0)
  {
    assert (issues + [x])[..|issues|] == issues;
    if keys != [] {
      SumTypeCountsSnoc(issues, x, keys[1..]);
    }
  }

  lemma {:induction false} SumSeverityCountsSnoc(issues: seq<SecurityIssue>, x: SecurityIssue, keys: seq<string>)
    requires forall a, b :: 0 <= a < b < |keys| ==> keys[a] != keys[b]
    ensures SumSeverityCounts(issues + [x], keys) == SumSeverityCounts(issues, keys) + (if x.severity in keys then 1 else 0)
  {
    assert (issues + [x])[..|issues|] == issues;
    if keys != [] {
      SumSeverityCountsSnoc(issues, x, keys[1..]);
    }
  }

  /** The issue_types counters add up to total_issues: summed over any list
    * that enumerates the recorded types once each. */
  lemma {:induction false} TypeCountsSumToTotal(issues: seq<SecurityIssue>, keys: seq<string>)
    requires forall a, b :: 0 <= a < b < |keys| ==> keys[a] != keys[b]
    requires forall i :: 0 <= i < |issues| ==> issues[i].issueType in keys
    ensures SumTypeCounts(issues, keys) == |issues|
  {
    if issues == [] {
      EmptyTypeSum(keys);
    } else {
      var p := issues[..|issues| - 1];
      assert forall i :: 0 <= i < |p| ==> p[i] == issues[i];
      TypeCountsSumToTotal(p, keys);
      SumTypeCountsSnoc(p, issues[|issues| - 1], keys);
      assert p + [issues[|issues| - 1]] == issues;
    }
  }

  lemma {:induction false} EmptyTypeSum(keys: seq<string>)
    ensures SumTypeCounts([], keys) == 0
  {
    if keys != [] { EmptyTypeSum(keys[1..]); }
  }

  lemma {:induction false} EmptySeveritySum(keys: seq<string>)
    ensures SumSeverityCounts([], keys) == 0
  {
    if keys != [] { EmptySeveritySum(keys[1..]); }
  }

  /** When no KeyError is raised the four severity counters add up to total_issues. */
  lemma {:induction false} SeverityCountsSumToTotal(issues: seq<SecurityIssue>)
    requires KnownSeverities(issues)
    ensures SumSeverityCounts(issues, [SevCritical, SevHigh, SevMedium, SevLow]) == |issues|
  {
    var keys := [SevCritical, SevHigh, SevMedium, SevLow];
    if issues == [] {
      EmptySeveritySum(keys);
    } else {
      var p := issues[..|issues| - 1];
      assert forall i :: 0 <= i < |p| ==> p[i] == issues[i];
      SeverityCountsSumToTotal(p);
      SumSeverityCountsSnoc(p, issues[|issues| - 1], keys);
      assert p + [issues[|issues| - 1]] == issues;
    }
  }

  // ---- verdict ----

  predicate Severe(issue: SecurityIssue)
  {
    issue.severity == SevHigh || issue.severity == SevCritical
  }

  function CountSevere(issues: seq<SecurityIssue>): (n: nat)
    ensures n == 0 <==> forall i :: 0 <= i < |issues| ==> !Severe(issues[i])
  {
    if issues == [] then 0
    else
      var p := issues[..|issues| - 1];
      assert forall i :: 0 <= i < |p| ==> p[i] == issues[i];
      CountSevere(p) + (if Severe(issues[|issues| - 1]) then 1 else 0)
  }

  /** `is_secure`: no issue is high or critical. */
  function IsSecure(issues: seq<SecurityIssue>): (b: bool)
    ensures b <==> forall i :: 0 <= i < |issues| ==> issues[i].severity != SevHigh && issues[i].severity != SevCritical
  {
    CountSevere(issues) == 0
  }

  function ScanIssues(sc: Scanner, m: Matcher, t: Tree, path: string): seq<SecurityIssue>
  {
    StructureIssues(t) + DependencyIssues(t, path) + MatchIssues(sc, Secrets, m, t)
    + MalwareIssues(sc, t) + MatchIssues(sc, Vulnerabilities, m, t)
  }

  /** The severity each detector gives its findings. */
  lemma DetectorSeverities(sc: Scanner, m: Matcher, t: Tree, path: string)
    ensures forall x :: x in StructureIssues(t) ==> x.severity == SevMedium
    ensures DependencyIssues(t, path) == []
    ensures forall x :: x in MatchIssues(sc, Secrets, m, t) ==> x.severity == SevHigh
    ensures forall x :: x in MalwareIssues(sc, t) ==> x.severity == SevCritical
    ensures forall x :: x in MatchIssues(sc, Vulnerabilities, m, t) ==> x.severity == SevHigh
  {
    StructureIssuesAreMedium(t);
    DependencyScanEmpty(t, path);
    MatchIssuesAreHigh(sc, Secrets, m, t);
    MalwareNeedsSignature(sc, t);
    MatchIssuesAreHigh(sc, Vulnerabilities, m, t);
  }

  /** The severity of a finding in the concatenation of the five detectors' lists. */
  lemma PartsSeverity(a: seq<SecurityIssue>, b: seq<SecurityIssue>, c: seq<SecurityIssue>,
                      d: seq<SecurityIssue>, e: seq<SecurityIssue>, y: SecurityIssue)
    requires forall x :: x in a ==> x.severity == SevMedium
    requires b == []
    requires forall x :: x in c ==> x.severity == SevHigh
    requires forall x :: x in d ==> x.severity == SevCritical
    requires forall x :: x in e ==> x.severity == SevHigh
    requires y in a + b + c + d + e
    ensures y.severity in SeverityKeys
    ensures Severe(y) <==> y in c || y in d || y in e
  {
  }

  /** Where each reported issue comes from decides its severity: a
    * permission finding is medium, every other finding high or critical. */
  lemma IssueSeverity(sc: Scanner, m: Matcher, t: Tree, path: string, y: SecurityIssue)
    requires y in ScanIssues(sc, m, t, path)
    ensures y.severity in SeverityKeys
    ensures Severe(y) <==> (y in MatchIssues(sc, Secrets, m, t) || y in MalwareIssues(sc, t)
      || y in MatchIssues(sc, Vulnerabilities, m, t))
  {
    DetectorSeverities(sc, m, t, path);
    PartsSeverity(StructureIssues(t), DependencyIssues(t, path), MatchIssues(sc, Secrets, m, t),
      MalwareIssues(sc, t), MatchIssues(sc, Vulnerabilities, m, t), y);
  }

  /** Every issue the five detectors produce has a severity the summary knows. */
  lemma ScanSeveritiesKnown(sc: Scanner, m: Matcher, t: Tree, path: string)
    ensures KnownSeverities(ScanIssues(sc, m, t, path))
  {
    var all := ScanIssues(sc, m, t, path);
    forall i | 0 <= i < |all| ensures all[i].severity in SeverityKeys {
      IssueSeverity(sc, m, t, path, all[i]);
    }
  }

  /** `is_secure` read on membership. */
  lemma SecureMembers(issues: seq<SecurityIssue>)
    ensures IsSecure(issues) <==> forall y :: y in issues ==> !Severe(y)
  {
    if !IsSecure(issues) {
      var i :| 0 <= i < |issues| && Severe(issues[i]);
      assert issues[i] in issues;
    }
  }

  /** No finding of the concatenation is severe exactly when the three severe lists are empty. */
  lemma PartsSecure(a: seq<SecurityIssue>, b: seq<SecurityIssue>, c: seq<SecurityIssue>,
                    d: seq<SecurityIssue>, e: seq<SecurityIssue>)
    requires forall x :: x in a ==> x.severity == SevMedium
    requires b == []
    requires forall x :: x in c ==> x.severity == SevHigh
    requires forall x :: x in d ==> x.severity == SevCritical
    requires forall x :: x in e ==> x.severity == SevHigh
    ensures (forall y :: y in a + b + c + d + e ==> !Severe(y)) <==> c == [] && d == [] && e == []
  {
    if c != [] { assert c[0] in a + b + c + d + e; }
    if d != [] { assert d[0] in a + b + c + d + e; }
    if e != [] { assert e[0] in a + b + c + d + e; }
  }

  /** The verdict is secure exactly when neither regular-expression scan nor
    * the malware scan found anything: permission findings are only medium. */
  lemma SecureIffNoSevereFindings(sc: Scanner, m: Matcher, t: Tree, path: string)
    ensures IsSecure(ScanIssues(sc, m, t, path)) <==>
      MatchIssues(sc, Secrets, m, t) == [] && MalwareIssues(sc, t) == [] && MatchIssues(sc, Vulnerabilities, m, t) == []
  {
    DetectorSeverities(sc, m, t, path);
    SecureMembers(ScanIssues(sc, m, t, path));
    PartsSecure(StructureIssues(t), DependencyIssues(t, path), MatchIssues(sc, Secrets, m, t),
      MalwareIssues(sc, t), MatchIssues(sc, Vulnerabilities, m, t));
  }

  /** The summary `_generate_summary` builds for the findings: the total,
    * a count for each of the four severities, a count for each issue type
    * found, and the number of findings with a recommendation. */
  predicate Summarizes(issues: seq<SecurityIssue>, s: Summary)
  {
    && s.totalIssues == |issues|
    && s.severityCounts.Keys == SeverityKeys
    && (forall sv :: sv in SeverityKeys ==> s.severityCounts[sv] == CountSeverity(issues, sv))
    && s.issueTypes.Keys == TypesOf(issues)
    && (forall ty :: ty in TypesOf(issues) ==> s.issueTypes[ty] == CountType(issues, ty))
    && s.recommendations == CountRecommended(issues)
  }

  /** `scan_project`: the detectors' findings in the order structure,
    * dependencies, secrets, malware, vulnerabilities; then the summary and
    * the verdict. The summary cannot raise for these findings. */
  method ScanProject(sc: Scanner, m: Matcher, t: Tree, path: string, timestamp: string)
    returns (r: Result<ScanResult, string>)
    ensures r.Ok?
    ensures r.value.timestamp == timestamp
    ensures r.value.issues == StructureIssues(t) + DependencyIssues(t, path) + MatchIssues(sc, Secrets, m, t)
      + MalwareIssues(sc, t) + MatchIssues(sc, Vulnerabilities, m, t)
    ensures Summarizes(r.value.issues, r.value.summary)
    ensures r.value.isSecure <==> forall i :: 0 <= i < |r.value.issues| ==> !Severe(r.value.issues[i])
  {
    var issues := ScanProjectStructure(t);
    DependencyScanEmpty(t, path);
    issues := issues + DependencyIssues(t, path);
    var secrets := ScanMatches(sc, Secrets, m, t);
    issues := issues + secrets;
    var malware := ScanMalware(sc, t);
    issues := issues + malware;
    var vulns := ScanMatches(sc, Vulnerabilities, m, t);
    issues := issues + vulns;
    ScanSeveritiesKnown(sc, m, t, path);
    var summary := GenerateSummary(issues);
    match summary {
      case Err(e) => r := Err(e);
      case Ok(s) => r := Ok(ScanResult(timestamp, issues, s, IsSecure(issues)));
    }
  }

  // ---- header table ----

  const SecurityHeaders: seq<string> := [
    "Strict-Transport-Security", "Content-Security-Policy", "X-Frame-Options",
    "X-Content-Type-Options", "X-XSS-Protection", "Referrer-Policy", "Permissions-Policy"
  ]

  lemma SecurityHeadersDistinct()
    ensures |set h | h in SecurityHeaders| == 7
  {
    assert Distinct(SecurityHeaders);
    DistinctCard(SecurityHeaders);
  }

  datatype HeaderReport = Presence(table: map<string, bool>) | Failure(error: string)

  /** `header in headers` on the case-insensitive headers of a response. */
  predicate HasHeader(names: seq<string>, header: string)
  {
    exists k :: 0 <= k < |names| && EqualFold(names[k], header)
  }

  /** `check_security_headers`: the fetch (a parameter) either failed with
    * a message or produced the response's header names. */
  function CheckSecurityHeaders(response: Result<seq<string>, string>): (r: HeaderReport)
    ensures response.Err? ==> r == Failure(response.error)
    ensures response.Ok? ==> r.Presence? && r.table.Keys == set h | h in SecurityHeaders
    ensures response.Ok? ==> |r.table| == 7
    ensures response.Ok? ==> forall h :: h in r.table ==> (r.table[h] <==> HasHeader(response.value, h))
  {
    match response
    case Err(e) => Failure(e)
    case Ok(names) =>
      var table := map h | h in SecurityHeaders :: HasHeader(names, h);
      SecurityHeadersDistinct();
      Presence(table)
  }

  // ---- command line ----

  datatype Dispatch =
    | InvalidArguments
    | RunScanProject(target: string)
    | RunSslCheck(target: string)
    | RunHeadersCheck(target: string)
    | InvalidCommand

  function ExitCode(d: Dispatch): int
  {
    if d == InvalidArguments || d == InvalidCommand then 1 else 0
  }

  /** `main`: argv[0] is the program; fewer than three items is an argument error. */
  function CommandLine(argv: seq<string>): (d: Dispatch)
    ensures |argv| < 3 <==> d == InvalidArguments
    ensures ExitCode(d) == 1 <==> |argv| < 3 || argv[1] !in {"scan-project", "ssl-check", "headers-check"}
    ensures d.RunScanProject? || d.RunSslCheck? || d.RunHeadersCheck? ==> d.target == argv[2]
  {
    if |argv| < 3 then InvalidArguments
    else if argv[1] == "scan-project" then RunScanProject(argv[2])
    else if argv[1] == "ssl-check" then RunSslCheck(argv[2])
    else if argv[1] == "headers-check" then RunHeadersCheck(argv[2])
    else InvalidCommand
  }
}
