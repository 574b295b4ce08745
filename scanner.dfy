// The vulnerability scanner of QUANT_WW_GO/internal/security/scanner.go:
// the registered scan modules, the choice of scan types, one scan of a
// target and the summary of what it found. What a module finds, whether a
// target is an IP address, URL parsing, the scan id and the clock are
// parameters; the modules run one after the other in the order of the
// scan types.
module SecurityScanner {
  import opened Wrappers
  import opened StrUtil
  import opened Seqs

  const Second: int := 1_000_000_000

  const RiskLow := 0
  const RiskMedium := 1
  const RiskHigh := 2
  const RiskCritical := 3

  datatype ScannerConfig = ScannerConfig(concurrency: int, timeout: int, retryAttempts: int, retryDelay: int,
                                         userAgent: string, enabledScanTypes: seq<string>, maxScanDepth: int,
                                         portRanges: seq<string>, includeCommon: bool)

  const PortScan := "port_scan"
  const HeaderAnalysis := "header_analysis"
  const SslTlsCheck := "ssl_tls_check"
  const CommonVulnerabilities := "common_vulnerabilities"
  const DependencyCheck := "dependency_check"

  function DefaultScannerConfig(): (c: ScannerConfig)
    ensures c.concurrency == 10 && c.timeout == 30 * Second && c.retryAttempts == 2 && c.retryDelay == 5 * Second
    ensures c.enabledScanTypes == [PortScan, HeaderAnalysis, SslTlsCheck, CommonVulnerabilities, DependencyCheck]
    ensures c.maxScanDepth == 3 && c.includeCommon
  {
    ScannerConfig(10, 30 * Second, 2, 5 * Second, "QuantWebWorksGO-Scanner/1.0",
                  [PortScan, HeaderAnalysis, SslTlsCheck, CommonVulnerabilities, DependencyCheck],
                  3, ["80-100", "443-443", "8000-8100", "3000-3100"], true)
  }

  datatype ScanModule = ScanModule(name: string, description: string, category: string)

  /** The modules NewScanner registers, the common-vulnerability one only when configured. */
  function DefaultModules(includeCommon: bool): (m: map<string, ScanModule>)
    ensures m.Keys == {PortScan, HeaderAnalysis, SslTlsCheck, DependencyCheck} + (if includeCommon then {CommonVulnerabilities} else {})
    ensures forall n :: n in m ==> m[n].name == n && n != ""
  {
    var base := map[
      PortScan := PortScanModule, HeaderAnalysis := HeaderAnalysisModule,
      SslTlsCheck := SslTlsCheckModule, DependencyCheck := DependencyCheckModule];
    if includeCommon then base[CommonVulnerabilities := CommonVulnerabilitiesModule] else base
  }

  const PortScanModule := ScanModule(PortScan, "Scans for open ports on the target", "network")
  const HeaderAnalysisModule := ScanModule(HeaderAnalysis, "Analyzes HTTP response headers for security issues", "web")
  const SslTlsCheckModule := ScanModule(SslTlsCheck, "Checks SSL/TLS configuration for security issues", "crypto")
  const DependencyCheckModule := ScanModule(DependencyCheck, "Checks project dependencies for known vulnerabilities", "dependencies")
  const CommonVulnerabilitiesModule := ScanModule(CommonVulnerabilities, "Checks for common web vulnerabilities (XSS, CSRF, etc.)", "web")

  datatype Vulnerability = Vulnerability(id: string, target: string, vulnType: string, severity: int, title: string,
                                         description: string, remediation: string, references: seq<string>,
                                         detectedAt: int, score: real, cve: string)

  datatype ScanSummary = ScanSummary(totalVulnerabilities: nat, bySeverity: map<string, nat>,
                                     byCategory: map<string, nat>, highestScore: real,
                                     recommendations: seq<string>, topVulnerabilities: seq<string>,
                                     metaData: map<string, string>)

  datatype ScanResult = ScanResult(target: string, scanType: string, startTime: int, endTime: int,
                                   vulnerabilities: seq<Vulnerability>, error: string, status: string,
                                   scanID: string, summary: ScanSummary)

  const ErrEmptyTarget := "target cannot be empty"
  const ErrNoScanTypes := "no scan types specified or enabled"

  /** normalizeTarget: an IP address or a path stays as it is, an http(s)
    * URL is parsed and printed again, and a bare domain gets https://. */
  function NormalizeTarget(target: string, isIP: string -> bool, parseURL: string -> Result<string, string>)
    : (r: Result<string, string>)
    ensures isIP(target) ==> r == Ok(target)
    ensures !isIP(target) && (HasPrefix(target, "http://") || HasPrefix(target, "https://")) ==>
      r == (if parseURL(target).Ok? then Ok(parseURL(target).value) else Err("invalid URL: " + parseURL(target).error))
    ensures r.Err? ==> !isIP(target) && parseURL(target).Err?
    ensures !isIP(target) && !HasPrefix(target, "http://") && !HasPrefix(target, "https://") ==>
      r == Ok(if '.' in target && '/' !in target then "https://" + target else target)
  {
    if isIP(target) then Ok(target)
    else if HasPrefix(target, "http://") || HasPrefix(target, "https://") then
      var parsed := parseURL(target);
      if parsed.Err? then Err("invalid URL: " + parsed.error) else Ok(parsed.value)
    else if '.' in target && '/' !in target then Ok("https://" + target)
    else Ok(target)
  }

  /** determineScanTypes: the enabled types when none are requested, else the
    * requested ones that are enabled, in the order requested. */
  method DetermineScanTypes(enabled: seq<string>, requested: seq<string>) returns (r: seq<string>)
    ensures r == if |requested| == 0 then enabled else Filter(requested, (t: string) => t in enabled)
  {
    if |requested| == 0 {
      return enabled;
    }
    var enabledTypes: set<string> := {};
    var i := 0;
    while i < |enabled|
      invariant 0 <= i <= |enabled|
      invariant enabledTypes == set j | 0 <= j < i :: enabled[j]
    {
      enabledTypes := enabledTypes + {enabled[i]};
      i := i + 1;
    }
    assert forall t :: t in enabledTypes <==> t in enabled;
    r := [];
    i := 0;
    while i < |requested|
      invariant 0 <= i <= |requested|
      invariant r == Filter(requested[..i], (t: string) => t in enabled)
    {
      FilterStep(requested, i, (t: string) => t in enabled);
      if requested[i] in enabledTypes {
        r := r + [requested[i]];
      }
      i := i + 1;
    }
    FilterWhole(requested, (t: string) => t in enabled);
  }

  /** A type is chosen exactly when it is enabled and, if any were requested, requested. */
  lemma ScanTypesChosen(enabled: seq<string>, requested: seq<string>, t: string)
    ensures var r := if |requested| == 0 then enabled else Filter(requested, (x: string) => x in enabled);
      t in r <==> t in enabled && (|requested| == 0 || t in requested)
  {
    FilterMember(requested, (x: string) => x in enabled, t);
  }

  /** The key the summary counts a severity under as written: Go's
    * `string(RiskLevel)` converts the number to the character with that
    * code, and an invalid code to U+FFFD. */
  function SeverityKeyAsWritten(level: int): (k: string)
    ensures |k| == 1
  {
    if 0 <= level < 0xD800 || 0xE000 <= level < 0x11_0000 then [level as char] else ['\U{FFFD}']
  }

  /** The name a severity is evidently meant to be counted under. */
  function SeverityName(level: int): string
  {
    if level == RiskLow then LowName
    else if level == RiskMedium then MediumName
    else if level == RiskHigh then HighName
    else if level == RiskCritical then CriticalName
    else UnknownName
  }

  const LowName := "low"
  const MediumName := "medium"
  const HighName := "high"
  const CriticalName := "critical"
  const UnknownName := "unknown"

  /** As written, a critical or high finding is counted under a control
    * character, not under a name; the four names are distinct. */
  lemma SeverityKeysAreCharacters()
    ensures SeverityKeyAsWritten(RiskHigh) == [2 as char] && SeverityName(RiskHigh) == HighName
    ensures SeverityKeyAsWritten(RiskCritical) == [3 as char] && SeverityName(RiskCritical) == CriticalName
    ensures SeverityKeyAsWritten(RiskHigh) != SeverityName(RiskHigh)
    ensures forall a, b :: RiskLow <= a < b <= RiskCritical ==> SeverityName(a) != SeverityName(b)
  {
    assert |LowName| == 3 && |MediumName| == 6 && |HighName| == 4 && |CriticalName| == 8;
  }

  lemma SeverityNamesLong(level: int)
    requires RiskLow <= level <= RiskCritical
    ensures |SeverityName(level)| >= 3
  {
    assert |LowName| == 3 && |MediumName| == 6 && |HighName| == 4 && |CriticalName| == 8;
  }

  /** As written, the summary counts under one-character keys only, so no
    * count is ever found under a level's name. */
  lemma {:induction false} NoCountUnderName(vs: seq<Vulnerability>, level: int)
    requires RiskLow <= level <= RiskCritical
    ensures SeverityName(level) !in Tally(FlatMap(vs, (v: Vulnerability) => [SeverityKeyAsWritten(v.severity)]))
  {
    SeverityKeysShort(vs);
    SeverityNamesLong(level);
    TallyCounts(FlatMap(vs, (v: Vulnerability) => [SeverityKeyAsWritten(v.severity)]));
  }

  /** Every key the scan counts severities under is a single character. */
  lemma SeverityKeysShort(vs: seq<Vulnerability>)
    ensures forall k :: k in FlatMap(vs, (v: Vulnerability) => [SeverityKeyAsWritten(v.severity)]) ==> |k| == 1
  {
    var f := (v: Vulnerability) => [SeverityKeyAsWritten(v.severity)];
    forall k | k in FlatMap(vs, f) ensures |k| == 1 {
      var i := FlatMapSource(vs, f, k);
    }
  }

  /** The category a type is counted under: the text before its first "." */
  function Category(vulnType: string): (c: string)
    ensures HasPrefix(vulnType, c) && '.' !in c
    ensures |c| < |vulnType| ==> vulnType[|c|] == '.'
  {
    SplitFirst(vulnType, '.');
    Split(vulnType, '.')[0]
  }

  predicate Severe(v: Vulnerability)
  {
    v.severity == RiskCritical || v.severity == RiskHigh
  }

  function SeverityKeys(vs: seq<Vulnerability>): seq<string>
  {
    FlatMap(vs, (v: Vulnerability) => [SeverityName(v.severity)])
  }

  function Categories(vs: seq<Vulnerability>): seq<string>
  {
    FlatMap(vs, (v: Vulnerability) => [Category(v.vulnType)])
  }

  function Types(vs: seq<Vulnerability>): seq<string>
  {
    FlatMap(vs, (v: Vulnerability) => [v.vulnType])
  }

  function SevereTitles(vs: seq<Vulnerability>): seq<string>
  {
    FlatMap(vs, (v: Vulnerability) => if Severe(v) then [v.title] else [])
  }

  // The vulnerability types the recommendations look for.
  const WeakCipher := "ssl_tls.weak_cipher"
  const OutdatedTls := "ssl_tls.outdated"
  const MissingHeaders := "header.missing_security_headers"
  const UnnecessaryPort := "port.unnecessary_open"
  const OutdatedDependency := "dependency.outdated"
  const Xss := "common.xss"
  const Injection := "common.injection"

  const RecommendTls := "Update SSL/TLS configuration to use strong ciphers and protocols"
  const RecommendHeaders := "Implement security headers such as Content-Security-Policy, X-XSS-Protection"
  const RecommendPorts := "Close unnecessary open ports to reduce attack surface"
  const RecommendDependencies := "Update outdated dependencies to latest secure versions"
  const RecommendValidation := "Implement input validation and output encoding to prevent injection attacks"

  /** The recommendations for the vulnerability types found, in their fixed order. */
  function Recommendations(types: seq<string>): seq<string>
  {
    (if WeakCipher in types || OutdatedTls in types then [RecommendTls] else [])
    + (if MissingHeaders in types then [RecommendHeaders] else [])
    + (if UnnecessaryPort in types then [RecommendPorts] else [])
    + (if OutdatedDependency in types then [RecommendDependencies] else [])
    + (if Xss in types || Injection in types then [RecommendValidation] else [])
  }

  /** There are at most five recommendations, each given once, so the cut
    * to five never drops one; the input-validation advice is given exactly
    * when an XSS or injection finding is present. */
  lemma RecommendationsBound(types: seq<string>)
    ensures |Recommendations(types)| <= 5
    ensures Distinct(Recommendations(types))
    ensures RecommendValidation in Recommendations(types) <==> Xss in types || Injection in types
    ensures RecommendTls in Recommendations(types) <==> WeakCipher in types || OutdatedTls in types
  {
    RecommendationsDiffer();
    var a := if WeakCipher in types || OutdatedTls in types then [RecommendTls] else [];
    var b := a + (if MissingHeaders in types then [RecommendHeaders] else []);
    var c := b + (if UnnecessaryPort in types then [RecommendPorts] else []);
    var d := c + (if OutdatedDependency in types then [RecommendDependencies] else []);
    assert forall x :: x in d ==> x in {RecommendTls, RecommendHeaders, RecommendPorts, RecommendDependencies};
    DistinctAppendOptional(a, RecommendHeaders, MissingHeaders in types);
    DistinctAppendOptional(b, RecommendPorts, UnnecessaryPort in types);
    DistinctAppendOptional(c, RecommendDependencies, OutdatedDependency in types);
    DistinctAppendOptional(d, RecommendValidation, Xss in types || Injection in types);
  }

  lemma DistinctAppendOptional(s: seq<string>, x: string, present: bool)
    requires Distinct(s) && x !in s
    ensures Distinct(s + (if present then [x] else []))
  {
    if present {
      DistinctSnoc(s, x);
    } else {
      assert s + [] == s;
    }
  }

  lemma RecommendationsDiffer()
    ensures |RecommendTls| == 64 && |RecommendHeaders| == 76 && |RecommendPorts| == 53
    ensures |RecommendDependencies| == 54 && |RecommendValidation| == 75
  {
  }

  /** The loop of generateRecommendations that counts each vulnerability type. */
  method CountTypes(vs: seq<Vulnerability>) returns (typeCount: map<string, nat>)
    ensures forall t :: CountOf(typeCount, t) > 0 <==> t in Types(vs)
  {
    typeCount := map[];
    var i := 0;
    while i < |vs|
      invariant 0 <= i <= |vs|
      invariant typeCount == Tally(Types(vs[..i]))
    {
      FlatMapStep(vs, i, (v: Vulnerability) => [v.vulnType]);
      TallySnoc(Types(vs[..i]), vs[i].vulnType);
      typeCount := Bump(typeCount, vs[i].vulnType);
      i := i + 1;
    }
    assert vs[..i] == vs;
    TallyCounts(Types(vs));
  }

  /** generateRecommendations: nothing without findings; otherwise the
    * recommendations for the types found, cut to five. */
  method GenerateRecommendations(vs: seq<Vulnerability>) returns (recs: seq<string>)
    ensures recs == if vs == [] then [] else Recommendations(Types(vs))
  {
    if |vs| == 0 {
      return [];
    }
    var typeCount := CountTypes(vs);
    ghost var types := Types(vs);
    recs := [];
    if CountOf(typeCount, WeakCipher) > 0 || CountOf(typeCount, OutdatedTls) > 0 {
      recs := recs + [RecommendTls];
    }
    if CountOf(typeCount, MissingHeaders) > 0 {
      recs := recs + [RecommendHeaders];
    }
    if CountOf(typeCount, UnnecessaryPort) > 0 {
      recs := recs + [RecommendPorts];
    }
    if CountOf(typeCount, OutdatedDependency) > 0 {
      recs := recs + [RecommendDependencies];
    }
    if CountOf(typeCount, Xss) > 0 || CountOf(typeCount, Injection) > 0 {
      recs := recs + [RecommendValidation];
    }
    assert recs == Recommendations(types);
    recs := Take(recs, 5);
    RecommendationsBound(types);
  }

  /** A Go map read: a missing key reads as 0. */
  function CountOf(m: map<string, nat>, k: string): nat
  {
    if k in m then m[k] else 0
  }

  /** What generateSummary returns for the findings `vs`. */
  ghost predicate IsSummaryOf(vs: seq<Vulnerability>, s: ScanSummary)
  {
    && s.totalVulnerabilities == |vs|
    && s.bySeverity == Tally(SeverityKeys(vs)) && s.byCategory == Tally(Categories(vs))
    && s.highestScore >= 0.0 && (forall v :: v in vs ==> v.score <= s.highestScore)
    && (s.highestScore == 0.0 || exists v :: v in vs && v.score == s.highestScore)
    && s.topVulnerabilities == Take(SevereTitles(vs), 5)
    && s.recommendations == (if vs == [] then [] else Recommendations(Types(vs)))
    && s.metaData == map[]
  }

  /** generateSummary: the counts by severity name and by category, the
    * highest score (0 without findings), at most five critical or high
    * titles in order, and the recommendations. */
  method GenerateSummary(vs: seq<Vulnerability>) returns (s: ScanSummary)
    ensures s.totalVulnerabilities == |vs|
    ensures s.bySeverity == Tally(SeverityKeys(vs)) && s.byCategory == Tally(Categories(vs))
    ensures s.highestScore >= 0.0 && forall v :: v in vs ==> v.score <= s.highestScore
    ensures s.highestScore == 0.0 || exists v :: v in vs && v.score == s.highestScore
    ensures s.topVulnerabilities == Take(SevereTitles(vs), 5)
    ensures s.recommendations == if vs == [] then [] else Recommendations(Types(vs))
    ensures s.metaData == map[]
  {
    var bySeverity, byCategory, highest, top := SummaryCounts(vs);
    var recs := GenerateRecommendations(vs);
    s := ScanSummary(|vs|, bySeverity, byCategory, highest, recs, top, map[]);
  }

  /** The loop of generateSummary over the findings. */
  method SummaryCounts(vs: seq<Vulnerability>)
    returns (bySeverity: map<string, nat>, byCategory: map<string, nat>, highest: real, top: seq<string>)
    ensures bySeverity == Tally(SeverityKeys(vs)) && byCategory == Tally(Categories(vs))
    ensures highest >= 0.0 && forall v :: v in vs ==> v.score <= highest
    ensures highest == 0.0 || exists v :: v in vs && v.score == highest
    ensures top == Take(SevereTitles(vs), 5)
  {
    bySeverity := map[];
    byCategory := map[];
    highest := 0.0;
    top := [];
    var i := 0;
    while i < |vs|
      invariant 0 <= i <= |vs|
      invariant Summarized(vs, i, bySeverity, byCategory, highest, top)
    {
      var bySeverity', byCategory', highest', top' := Account(vs[i], bySeverity, byCategory, highest, top);
      AccountStep(vs, i, bySeverity, byCategory, highest, top, bySeverity', byCategory', highest', top');
      bySeverity, byCategory, highest, top := bySeverity', byCategory', highest', top';
      i := i + 1;
    }
    SummarizedAll(vs, bySeverity, byCategory, highest, top);
  }

  /** The invariant of the summary loop after the first `i` findings. */
  ghost predicate Summarized(vs: seq<Vulnerability>, i: nat, bySeverity: map<string, nat>, byCategory: map<string, nat>,
                             highest: real, top: seq<string>)
    requires i <= |vs|
  {
    bySeverity == Tally(SeverityKeys(vs[..i])) && byCategory == Tally(Categories(vs[..i]))
    && highest >= 0.0 && (forall j :: 0 <= j < i ==> vs[j].score <= highest)
    && (highest == 0.0 || exists j :: 0 <= j < i && vs[j].score == highest)
    && top == Take(SevereTitles(vs[..i]), 5)
  }

  lemma AccountStep(vs: seq<Vulnerability>, i: nat, bySeverity: map<string, nat>, byCategory: map<string, nat>,
                    highest: real, top: seq<string>, bySeverity': map<string, nat>, byCategory': map<string, nat>,
                    highest': real, top': seq<string>)
    requires i < |vs| && Summarized(vs, i, bySeverity, byCategory, highest, top)
    requires bySeverity' == Bump(bySeverity, SeverityName(vs[i].severity))
    requires byCategory' == Bump(byCategory, Category(vs[i].vulnType))
    requires highest' == if vs[i].score > highest then vs[i].score else highest
    requires top' == if Severe(vs[i]) && |top| < 5 then top + [vs[i].title] else top
    ensures Summarized(vs, i + 1, bySeverity', byCategory', highest', top')
  {
    SummaryStep(vs, i);
    TopStep(vs, i, top);
  }

  lemma SummarizedAll(vs: seq<Vulnerability>, bySeverity: map<string, nat>, byCategory: map<string, nat>,
                      highest: real, top: seq<string>)
    requires Summarized(vs, |vs|, bySeverity, byCategory, highest, top)
    ensures bySeverity == Tally(SeverityKeys(vs)) && byCategory == Tally(Categories(vs))
    ensures highest >= 0.0 && forall v :: v in vs ==> v.score <= highest
    ensures highest == 0.0 || exists v :: v in vs && v.score == highest
    ensures top == Take(SevereTitles(vs), 5)
  {
    assert vs[..|vs|] == vs;
    if highest != 0.0 {
      var j :| 0 <= j < |vs| && vs[j].score == highest;
      assert vs[j] in vs;
    }
  }

  /** The body of the summary loop: one finding counted. */
  method Account(v: Vulnerability, bySeverity: map<string, nat>, byCategory: map<string, nat>, highest: real,
                 top: seq<string>)
    returns (bySeverity': map<string, nat>, byCategory': map<string, nat>, highest': real, top': seq<string>)
    ensures bySeverity' == Bump(bySeverity, SeverityName(v.severity))
    ensures byCategory' == Bump(byCategory, Category(v.vulnType))
    ensures highest' == if v.score > highest then v.score else highest
    ensures top' == if Severe(v) && |top| < 5 then top + [v.title] else top
  {
    bySeverity' := Bump(bySeverity, SeverityName(v.severity));
    var parts := Split(v.vulnType, '.');
    byCategory' := Bump(byCategory, parts[0]);
    highest' := highest;
    if v.score > highest {
      highest' := v.score;
    }
    top' := top;
    if v.severity == RiskCritical || v.severity == RiskHigh {
      if |top| < 5 {
        top' := top + [v.title];
      }
    }
  }

  /** One step of the summary loop: each combinator grows by the image of `vs[i]`. */
  lemma SummaryStep(vs: seq<Vulnerability>, i: nat)
    requires i < |vs|
    ensures Tally(SeverityKeys(vs[..i + 1])) == Bump(Tally(SeverityKeys(vs[..i])), SeverityName(vs[i].severity))
    ensures Tally(Categories(vs[..i + 1])) == Bump(Tally(Categories(vs[..i])), Category(vs[i].vulnType))
  {
    FlatMapStep(vs, i, (v: Vulnerability) => [SeverityName(v.severity)]);
    FlatMapStep(vs, i, (v: Vulnerability) => [Category(v.vulnType)]);
    TallySnoc(SeverityKeys(vs[..i]), SeverityName(vs[i].severity));
    TallySnoc(Categories(vs[..i]), Category(vs[i].vulnType));
  }

  /** One step of the top list: a critical or high title is added while there are fewer than five. */
  lemma TopStep(vs: seq<Vulnerability>, i: nat, top: seq<string>)
    requires i < |vs| && top == Take(SevereTitles(vs[..i]), 5)
    ensures Take(SevereTitles(vs[..i + 1]), 5) == if Severe(vs[i]) && |top| < 5 then top + [vs[i].title] else top
  {
    FlatMapStep(vs, i, (v: Vulnerability) => if Severe(v) then [v.title] else []);
  }

  /** The severity counts are the multiplicities of the severity names, and
    * the top list holds titles of critical or high findings only. */
  lemma SummaryMeaning(vs: seq<Vulnerability>)
    ensures forall k :: k in Tally(SeverityKeys(vs)) <==> exists v :: v in vs && SeverityName(v.severity) == k
    ensures forall t :: t in Take(SevereTitles(vs), 5) ==> exists v :: v in vs && Severe(v) && v.title == t
  {
    TallyCounts(SeverityKeys(vs));
    forall k ensures k in SeverityKeys(vs) <==> exists v :: v in vs && SeverityName(v.severity) == k {
      FlatMapMember(vs, (v: Vulnerability) => [SeverityName(v.severity)], k);
    }
    forall t | t in Take(SevereTitles(vs), 5) ensures exists v :: v in vs && Severe(v) && v.title == t {
      FlatMapMember(vs, (v: Vulnerability) => if Severe(v) then [v.title] else [], t);
    }
  }

  /** runScanModules, one module after another in the order of the types:
    * unknown types are skipped, and a failing module's message is kept. */
  method RunScanModules(modules: map<string, ScanModule>, scanTypes: seq<string>,
                        scan: string -> Result<seq<Vulnerability>, string>)
    returns (vs: seq<Vulnerability>, failures: seq<string>)
    ensures vs == FlatMap(scanTypes, Found(modules, scan))
    ensures failures == FlatMap(scanTypes, Failed(modules, scan))
  {
    vs := [];
    failures := [];
    var i := 0;
    while i < |scanTypes|
      invariant 0 <= i <= |scanTypes|
      invariant vs == FlatMap(scanTypes[..i], Found(modules, scan))
      invariant failures == FlatMap(scanTypes[..i], Failed(modules, scan))
    {
      FlatMapStep(scanTypes, i, Found(modules, scan));
      FlatMapStep(scanTypes, i, Failed(modules, scan));
      var t := scanTypes[i];
      if t in modules {
        var found := scan(t);
        if found.Err? {
          failures := failures + [ModuleFailed(modules[t].name, found.error)];
        } else if |found.value| > 0 {
          vs := vs + found.value;
        }
      }
      i := i + 1;
    }
    FlatMapWhole(scanTypes, Found(modules, scan));
    FlatMapWhole(scanTypes, Failed(modules, scan));
  }

  function ModuleFailed(name: string, e: string): string
  {
    "module " + name + " failed: " + e
  }

  function Found(modules: map<string, ScanModule>, scan: string -> Result<seq<Vulnerability>, string>)
    : string -> seq<Vulnerability>
  {
    (t: string) => if t in modules && scan(t).Ok? then scan(t).value else []
  }

  function Failed(modules: map<string, ScanModule>, scan: string -> Result<seq<Vulnerability>, string>)
    : string -> seq<string>
  {
    (t: string) => if t in modules && scan(t).Err? then [ModuleFailed(modules[t].name, scan(t).error)] else []
  }

  class Scanner {
    var config: ScannerConfig
    var scanModules: map<string, ScanModule>
    var running: bool

    /** Every module is registered under its own name. */
    predicate Valid()
      reads this
    {
      forall n :: n in scanModules ==> scanModules[n].name == n && n != ""
    }

    /** NewScanner: a non-positive concurrency becomes 5 and a non-positive
      * timeout 30 s; the default modules are registered. */
    constructor(c: ScannerConfig)
      ensures Valid()
      ensures config == c.(concurrency := if c.concurrency <= 0 then 5 else c.concurrency,
                           timeout := if c.timeout <= 0 then 30 * Second else c.timeout)
      ensures scanModules == DefaultModules(c.includeCommon) && !running
    {
      config := c.(concurrency := if c.concurrency <= 0 then 5 else c.concurrency,
                   timeout := if c.timeout <= 0 then 30 * Second else c.timeout);
      scanModules := DefaultModules(c.includeCommon);
      running := false;
    }

    /** RegisterModule: a missing or unnamed module is refused; a module
      * replaces any earlier one of the same name. */
    method RegisterModule(m: Option<ScanModule>) returns (err: Option<string>)
      modifies this
      requires Valid()
      ensures Valid()
      ensures m.None? ==> err == Some("module cannot be nil") && scanModules == old(scanModules)
      ensures m.Some? && m.value.name == "" ==> err == Some("module must have a name") && scanModules == old(scanModules)
      ensures m.Some? && m.value.name != "" ==>
        err.None? && scanModules == old(scanModules)[m.value.name := m.value]
      ensures config == old(config) && running == old(running)
    {
      if m.None? {
        return Some("module cannot be nil");
      }
      var name := m.value.name;
      if name == "" {
        return Some("module must have a name");
      }
      scanModules := scanModules[name := m.value];
      err := None;
    }

    /** ListModules: each module's description under its name. */
    function ListModules(): (r: map<string, string>)
      reads this
      ensures r.Keys == scanModules.Keys
      ensures forall n :: n in r ==> r[n] == scanModules[n].description
    {
      map n | n in scanModules :: scanModules[n].description
    }

    method Stop()
      modifies this
      ensures !running && config == old(config) && scanModules == old(scanModules)
    {
      running := false;
    }

    /** Scan: an empty target, an unparsable URL or no scan type to run is
      * an error; otherwise the result holds every finding of the modules
      * that ran, "failed" when one of them failed, and the summary. */
    method Scan(target: string, scanTypes: seq<string>, isIP: string -> bool, parseURL: string -> Result<string, string>,
                scan: string -> Result<seq<Vulnerability>, string>, scanID: string, startTime: int, endTime: int)
      returns (r: Result<ScanResult, string>)
      requires Valid()
      ensures target == "" ==> r == Err(ErrEmptyTarget)
      ensures target != "" && NormalizeTarget(target, isIP, parseURL).Err? ==>
        r == Err("invalid target: " + NormalizeTarget(target, isIP, parseURL).error)
      ensures target != "" && NormalizeTarget(target, isIP, parseURL).Ok? ==>
        var enabled := config.enabledScanTypes;
        var types := if |scanTypes| == 0 then enabled else Filter(scanTypes, (t: string) => t in enabled);
        && (types == [] ==> r == Err(ErrNoScanTypes))
        && (types != [] ==> (r.Ok?
             && r.value.target == NormalizeTarget(target, isIP, parseURL).value
             && r.value.scanType == Join(types, ",")
             && r.value.vulnerabilities == FlatMap(types, Found(scanModules, scan))
             && (r.value.status == "failed" <==> FlatMap(types, Failed(scanModules, scan)) != [])
             && (r.value.status != "failed" ==> r.value.status == "success" && r.value.error == "")
             && (r.value.status == "failed" ==>
                   r.value.error == "some scans failed: " + Join(FlatMap(types, Failed(scanModules, scan)), "; "))
             && IsSummaryOf(r.value.vulnerabilities, r.value.summary)
             && r.value.scanID == scanID && r.value.startTime == startTime && r.value.endTime == endTime))
    {
      if target == "" {
        return Err(ErrEmptyTarget);
      }
      var normalized := NormalizeTarget(target, isIP, parseURL);
      if normalized.Err? {
        return Err("invalid target: " + normalized.error);
      }
      var types := DetermineScanTypes(config.enabledScanTypes, scanTypes);
      if |types| == 0 {
        return Err(ErrNoScanTypes);
      }
      var vs, failures := RunScanModules(scanModules, types, scan);
      var error := "";
      var status := "success";
      if |failures| > 0 {
        error := "some scans failed: " + Join(failures, "; ");
        status := "failed";
      }
      var summary := GenerateSummary(vs);
      r := Ok(ScanResult(normalized.value, Join(types, ","), startTime, endTime, vs, error, status, scanID, summary));
    }
  }
}
