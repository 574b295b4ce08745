# Quant WebWorks GO — a Dafny model of its core

Quant WebWorks GO is a Go bridge server: adapters and protocols joined into
bridges, a plugin system, service discovery, metrics, a REST layer and a
security layer (two firewall rule stores, a rate limiter, event and alert
bookkeeping, risk scoring and a vulnerability scanner). It ships with a
Python helper that scans a project tree for security problems and a
Python script that maps a project's features. This project models the
deterministic core of those components in Dafny 4.11 and proves what they
promise. Each source file has its own module and file:

| module | file | models |
|---|---|---|
| SecurityScan | security_scan.dfy | the project security scanner of the Python helper: five detectors, the summary, the verdict, the header table, the command line |
| RuleFirewall, RuleFirewallProps, RuleFirewallScenarios | firewall.dfy, firewall_props.dfy | the rule store and evaluation of `firewall.go` |
| BasicFirewall, BasicFirewallProps, BasicFirewallFindings | firewall_impl.dfy, firewall_impl_props.dfy | the second rule store of `firewall_impl.go`, with its in-place exchange sort |
| FirewallTypes | firewall_types.dfy | rules, requests, results and the shared priority orderings |
| RateLimiting | rate_limiter.dfy | the in-memory rate limiter |
| SecurityEvents | security_events.dfy | event history, alerts, brute-force and exploit bookkeeping |
| Plugins, PluginRegistry | plugin.dfy, plugin_registry.dfy | the plugin lifecycle and the dependency-aware registry |
| Bridges, BridgeManager, BridgeMessages | bridge.dfy, bridge_manager.dfy, message.dfy | the bridge status machine, the manager and its health records, messages and routing |
| Adapters | adapters.dfy | the adapter factory registry and the base adapter's status and statistics |
| ErrorHandling, Router | error_handler.dfy, router.dfy | REST error codes and messages, Bearer tokens, client addresses and routes |
| RiskAnalysis, RiskPatterns | risk_analyzer.dfy, risk_patterns.dfy | integer risk scoring and pattern conditions |
| ServiceDiscovery | service_discovery.dfy | bridge services, filters and watcher notification |
| ProxyManager | proxy_manager.dfy | proxy routes and round-robin target choice |
| ImportAudit | import_audit.dfy | the import-line scanner of the project audit test |
| SecurityScanner | scanner.dfy | the Go vulnerability scanner's module table, scan types, summary and recommendations |
| ConfigStore | config.dfy | the configuration store and its integer parser |
| LoadStats | load_stats.dfy | the load test's interval and final statistics and its percentile |
| ProtocolBuffers | protocol_buffer.dfy | service manifests, lookups and `.proto` generation |
| EnvSecurity | env_security.dfy | environment-dependent security settings |
| FeatureMap | feature_map.dfy | feature typing, scoring, validation and the feature summary |
| PrometheusMetrics | prometheus.dfy | metric and label name normalisation and the vector table |
| DashboardFilters | dashboard_filters.dfy | the dashboard's metric and event filters |
| Seqs, StrUtil, Wrappers | seqs.dfy, strutil.dfy, wrappers.dfy | shared sequence combinators, string helpers, `Option`/`Result` |

Code that changes state in place is modelled as a Dafny `class` with
`modifies` clauses, and each method is proved against a function of the
old state. Pure code is modelled as functions and lemmas. Go's integer
types are unbounded integers. Where the source wraps around (int64 and
uint64 sums) or truncates (integer division toward zero), that is written
out explicitly. Go ranges over a map in an unspecified order; wherever
that order shows in a result, the order is a parameter of the model.
Clocks, uuids, randomness, regular-expression engines, address and URL
parsing, the file system and the network are parameters.

Several places in the source are not consistent Go; the model reads them as follows:
- `firewall_impl.go:310` uses a C-style `?:`, which is not Go. The model
  takes the evident meaning: wait for the period only for a rate rule
  whose action is to rate limit.
- `archive/internal/dashboard/types.go` reads a type, a source and a value
  from a resource metric. The resource-metrics type of
  `archive/internal/monitoring/resources.go` declares none of these fields.
  The model gives a metric exactly the three fields the filter reads.
- `internal/bridge/manager.go:231` calls `NewBridge(config, protocol, adapter)`
  and expects a bridge and an error, while `internal/bridge/bridge.go:106`
  declares `NewBridge(options, logger)` returning only a bridge. The model
  follows the manager: bridge construction is a builder parameter that
  yields a bridge or an error text.
- `manager.go:293` and `manager.go:334` call `bridge.Close()` and
  `manager.go:392` calls `bridge.Ping(...)`; `bridge.go` defines neither.
  A close error is only logged, so the model leaves closing out; ping
  outcomes are parameters of the health check.
- `manager.go:126` and `manager.go:152` call `Name()` on a protocol and an
  adapter, which their interfaces do not declare. The model gives each
  component a name field.
- `firewall.go:533`, `interface.go:191` and `load_test.go:456` declare
  variables they never use, which Go rejects. The model ignores them.

## Model

| member | source | states |
|---|---|---|
| ErrorHandling.TracesInFold | internal/api/rest/error_handler.go:97-101 | after lower-casing, stack traces are on exactly for an environment that equals development or staging in any letter case |
| ErrorHandling.DefaultsCoverAllCodes | internal/api/rest/error_handler.go:119-141 | the default message table has exactly the twenty error codes as its keys |
| ErrorHandling.NewValidationError | internal/api/rest/error_handler.go:316-328 | the field, message and code are kept, and a nil value becomes the empty string |
| ErrorHandling.Entries | internal/api/rest/error_handler.go:307-310 | one "field: message" entry per validation error, in order |
| ErrorHandling.ValidationMessageGrows | internal/api/rest/error_handler.go:302-313 | one error reads "validation errors: field: message", and each further error appends "; field: message" at the end |
| ErrorHandling.NewValidationFailure | internal/api/rest/error_handler.go:331-333 | the error value built from a list carries that list and its Error() text |
| ErrorHandling.StatusCode | internal/api/rest/error_handler.go:254-278 | the status gives one of the twenty codes; a 4xx status gives a client code, the unlisted ones BAD_REQUEST; 503 gives SERVICE_UNAVAILABLE; every other non-4xx status gives INTERNAL_SERVER_ERROR |
| ErrorHandling.StandardErrorHandler.constructor | internal/api/rest/error_handler.go:79-94 | a new handler is in development mode with stack traces, the default redaction list, the default messages and no mapped errors |
| ErrorHandling.StandardErrorHandler.SetEnvironment | internal/api/rest/error_handler.go:97-101 | the environment is stored lower-cased, and stack traces are on exactly for development or staging; nothing else changes |
| ErrorHandling.StandardErrorHandler.SetSensitiveFields | internal/api/rest/error_handler.go:104-106 | the redaction list is replaced and nothing else changes |
| ErrorHandling.StandardErrorHandler.SetErrorMessage | internal/api/rest/error_handler.go:109-111 | one code's message is set and nothing else changes |
| ErrorHandling.StandardErrorHandler.MapError | internal/api/rest/error_handler.go:114-116 | one error is mapped to a code and nothing else changes |
| ErrorHandling.StandardErrorHandler.SetDefaultErrorMessages | internal/api/rest/error_handler.go:119-146 | the defaults overwrite their codes, and custom messages for other codes stay |
| ErrorHandling.StandardErrorHandler.MergeMessages | internal/api/rest/error_handler.go:143-145 | the message table becomes the old one overwritten by the given entries |
| ErrorHandling.MergeInto | internal/api/rest/error_handler.go:143-145 | the loop over the map writes every entry, in whatever order, so the result is the base overwritten by the extra entries |
| ErrorHandling.StandardErrorHandler.GetErrorCode | internal/api/rest/error_handler.go:245-279 | when a mapped error is in the error's chain the code is the mapping of one such error, whichever the map order reaches first; otherwise the status decides |
| ErrorHandling.StandardErrorHandler.GetErrorMessage | internal/api/rest/error_handler.go:282-294 | the code's own message, else the error's text, else "An unexpected error occurred" |
| ErrorHandling.StandardErrorHandler.HandleError | internal/api/rest/error_handler.go:168-198 | the response has the status, request id, time and path, the code and message of getErrorCode and getErrorMessage, the trace id outside production only, and the validation list when the error is a ValidationErrors |
| ErrorHandling.DefaultMessagesShadowText | internal/api/rest/error_handler.go:282-286 | once the defaults are in place every one of the twenty codes has a message, so an error's own text is never shown for them |
| Router.ExtractBearerToken | internal/api/rest/router.go:435-454 | a missing header, a header without the `Bearer ` prefix and an empty token are the three errors; on success the token is the header with the prefix removed, and it is never empty |
| Router.BearerRoundTrip | internal/api/rest/router.go:443-453 | any non-empty token put behind `Bearer ` is extracted unchanged |
| Router.IsProxyIP | internal/api/rest/router.go:497-504 | true exactly when the address is one of the trusted proxies |
| Router.Candidates | internal/api/rest/router.go:462-474 | one trimmed entry per comma-separated X-Forwarded-For field, in order |
| Router.GetIPAddress | internal/api/rest/router.go:457-494 | the address computed is ClientIP: the first untrusted forwarded entry, else X-Real-IP trimmed, else the host of RemoteAddr, else RemoteAddr itself |
| Router.ClientIPMeaning | internal/api/rest/router.go:457-494 | when some forwarded entry is untrusted, the address is such an entry and every entry before it is trusted; when every entry is trusted or the header is absent, the X-Real-IP and RemoteAddr fallbacks decide |
| Router.RouteProblem | internal/api/rest/router.go:326-334 | a route is refused exactly when its path or method is empty or it has no handler, with the message of the first check that fails |
| Router.ValidPrefix | internal/api/rest/router.go:346-353 | the routes before the first invalid one: a prefix of the list, all valid, followed by an invalid route unless it is the whole list |
| Router.GenerateDocumentation | internal/api/rest/router.go:361-373 | an empty title becomes "API Documentation" and an empty version "1.0.0"; every other field is kept |
| Router.ApiRouter.constructor | internal/api/rest/router.go:20-30 | a new router has no routes, no base path and empty documentation |
| Router.ApiRouter.RegisterRoute | internal/api/rest/router.go:324-343 | an invalid route is refused with its message and changes nothing; a valid one is appended exactly once |
| Router.ApiRouter.RegisterRoutes | internal/api/rest/router.go:346-353 | the error is that of the first invalid route, and exactly the routes before it are appended, in order |
| Router.ValidPrefixStops | internal/api/rest/router.go:347-351 | the registration loop stops at the first invalid route, so what it appended is the valid prefix |
| Router.ApiRouter.SetDocumentation | internal/api/rest/router.go:376-378 | the documentation is replaced and nothing else changes |
| Router.ApiRouter.WithBasePath | internal/api/rest/router.go:396-400 | the base path is set and the routes and documentation are unchanged |
| RiskAnalysis.GoQuot | internal/security/risk/analyzer.go:157-167 | Go's integer division by a positive count: the quotient rounded toward zero, for negative sums too |
| RiskAnalysis.SeverityMultiplier | internal/security/risk/analyzer.go:53-65 | critical, high, medium and low multiply by 5, 4, 3 and 2; any other level by 1 |
| RiskAnalysis.PatternBoostStep | internal/security/risk/analyzer.go:69-73 | each pattern of the loop adds its boost when it matches and nothing otherwise |
| RiskAnalysis.NoMatchNoBoost | internal/security/risk/analyzer.go:69-73 | when no pattern matches, the patterns add nothing to the score |
| RiskAnalysis.SumStep | internal/security/risk/analyzer.go:154-166 | each point of the summing loop adds its score |
| RiskAnalysis.HistoryBoost | internal/security/risk/analyzer.go:137-177 | no boost for a history of fewer than two points or too short for two windows; a window that is not positive panics; otherwise the boost is either 0 or the configured trend boost, and it is the trend boost exactly when the recent average exceeds the earlier one by more than the threshold ratio (both directions proved) |
| RiskAnalysis.RiskScore | internal/security/risk/analyzer.go:35-84 | the baseline plus the source and type weights, times the severity multiplier, plus the matching patterns' boosts and a positive trend boost, capped at MaxRiskScore; no score exactly when the trend computation panics |
| RiskAnalysis.PatternBoostNonNegative | internal/security/risk/analyzer.go:68-73 | patterns whose boosts are all non-negative add a non-negative amount, whichever of them match |
| RiskAnalysis.RiskScoreAtLeastBase | internal/security/risk/analyzer.go:35-84 | with non-negative pattern boosts and a trend that does not panic, the score is at least the weighted, multiplied baseline, or the cap when that is lower |
| RiskAnalysis.ExtraPatternRaises | internal/security/risk/analyzer.go:68-84 | adding a pattern with a non-negative boost never lowers the score, and one that matches with a positive boost strictly raises a score below the cap |
| RiskAnalysis.Record | internal/security/risk/analyzer.go:116-134 | the new point is appended and only the last MaxHistoryPoints points are kept, the new one last; a negative bound panics |
| RiskAnalysis.SumScores | internal/security/risk/analyzer.go:153-156 | the loop's sum is the sum of the points' scores |
| RiskAnalysis.Analyzer.constructor | internal/security/risk/analyzer.go:24-32 | a new analyzer has the configuration and no patterns, factors, context data or history |
| RiskAnalysis.Analyzer.AddFactor | internal/security/risk/analyzer.go:92-97 | the factor is stored for its category, replacing any earlier one, and nothing else changes |
| RiskAnalysis.Analyzer.AddPattern | internal/security/risk/analyzer.go:100-105 | the pattern is appended and nothing else changes |
| RiskAnalysis.Analyzer.UpdateContextData | internal/security/risk/analyzer.go:108-113 | one context entry is set and nothing else changes |
| RiskAnalysis.Analyzer.CalculateHistoricalRiskBoost | internal/security/risk/analyzer.go:137-177 | the boost computed is HistoryBoost of the history kept for "source:type" |
| RiskAnalysis.Analyzer.RecordRiskScore | internal/security/risk/analyzer.go:116-134 | the history of "source:type" becomes Record of the old one with the new point; a negative bound panics and changes nothing; the other keys are unchanged |
| RiskAnalysis.Analyzer.ScoreBeforeTrend | internal/security/risk/analyzer.go:39-73 | the score before the trend is the weighted, multiplied baseline plus the matching patterns' boosts |
| RiskAnalysis.Analyzer.CalculateRisk | internal/security/risk/analyzer.go:35-89 | the score returned is RiskScore, and it is recorded under the event's source and type; a panic in the trend or the record gives no score and leaves the history unchanged |
| RiskAnalysis.RecordBounded | internal/security/risk/analyzer.go:126-133 | a history within its bound stays within it: below the bound the point is appended, at the bound the oldest point makes room |
| RiskPatterns.FieldValue | QUANT_WW_GO/internal/security/risk/types.go:95-120 | the seven named fields read the event with their Go types (the source a string, the severity a RiskLevel); any other name reads the raw data entry, and a missing one is no value |
| RiskPatterns.CompareNumeric | QUANT_WW_GO/internal/security/risk/types.go:155-179 | the sign of the comparison for two ints or two float64s, and 0 for every other pair of dynamic types |
| RiskPatterns.ContainsSubstringAsWritten | QUANT_WW_GO/internal/security/risk/types.go:150-152 | as written: it panics (no result) when the needle has more UTF-8 bytes than a different non-empty string, and reports true exactly when the needle's bytes fit and the string does NOT start with the needle |
| RiskPatterns.Utf8Len | QUANT_WW_GO/internal/security/risk/types.go:151 | Go's `len` of a string: its UTF-8 byte count, between one and four bytes per character, and equal to the character count for ASCII text |
| RiskPatterns.ContainsSubstringCountsBytes | QUANT_WW_GO/internal/security/risk/types.go:150-152 | lengths are compared in bytes: a one-character `é` (two bytes) admits the two-byte needle `ab`, and the two-character needle `éé` (four bytes) panics against `ab` |
| RiskPatterns.ContainsSubstring | QUANT_WW_GO/internal/security/risk/types.go:150-152 | the test the helper is named for: true exactly when the needle occurs somewhere in the string |
| RiskPatterns.ContainsSubstringInverted | QUANT_WW_GO/internal/security/risk/types.go:150-152 | "abc" is reported to contain "x" and not to contain "a", and a longer needle panics |
| RiskPatterns.MatchesCondition | QUANT_WW_GO/internal/security/risk/types.go:94-147 | a missing field, an unknown operation and a regex condition without a regex never match; equals and not_equals compare values and their dynamic types (the answer wherever Go's comparison does not panic); contains needs two strings and the substring test |
| RiskPatterns.InterfaceEquals | QUANT_WW_GO/internal/security/risk/types.go:124-127 | Go's `==` on two `interface{}` values: false for different dynamic types, a panic (no result) exactly for two values of one uncomparable type, and otherwise equality of the values |
| RiskPatterns.MatchesConditionAsWritten | QUANT_WW_GO/internal/security/risk/types.go:94-147 | as written: no result exactly when equals or not_equals compares a present field with a value of the same uncomparable type; otherwise MatchesCondition's answer |
| RiskPatterns.MatchesAsWrittenMeaning | QUANT_WW_GO/internal/security/risk/types.go:84-91 | the pattern loop as written, when it answers, answers as MatchesIff's conjunction, and it panics exactly when some condition panics after every earlier condition held |
| RiskPatterns.SliceEqualityPanics | QUANT_WW_GO/internal/security/risk/types.go:113-128 | a slice from the raw data compared with a slice of its type by equals or not_equals panics, and compared with a string is simply unequal |
| RiskPatterns.MatchesIff | QUANT_WW_GO/internal/security/risk/types.go:84-91 | a pattern matches exactly when every one of its conditions matches; one without conditions matches every event |
| RiskPatterns.SeverityIsNotAnInt | QUANT_WW_GO/internal/security/risk/types.go:103-141 | the severity field is a RiskLevel, so equality with an int and an int comparison never match |
| ServiceDiscovery.NewBridgeServiceInfo | internal/core/discovery/service_extension.go:336-347 | a copy of the base instance with empty protocol, adapter and capability lists and every statistic zero: uptime, request and error counts, last request time, average response time, active connections, CPU and memory usage |
| ServiceDiscovery.Deliver | internal/core/discovery/service_extension.go:222-238 | the non-blocking send queues the event when the channel has room and leaves a full channel as it was |
| ServiceDiscovery.SharesAny | internal/core/discovery/service_extension.go:247-258 | the two nested loops with their breaks find a match exactly when some wanted entry is among the service's |
| ServiceDiscovery.MetadataMatches | internal/core/discovery/service_extension.go:303-310 | true exactly when every wanted metadata key is present on the service with the same value |
| ServiceDiscovery.MatchesFilter | internal/core/discovery/service_extension.go:244-318 | a service matches exactly when each non-empty protocol, capability and tag list shares an entry with it, every metadata pair agrees, and a set status is its status |
| ServiceDiscovery.FilterServices | internal/core/discovery/service_extension.go:172-178 | the map loop keeps the admitted services and only those, one entry per admitted id |
| ServiceDiscovery.FoundStep | internal/core/discovery/service_extension.go:174-177 | one step of that loop keeps its invariant: the visited admitted ids and their services |
| ServiceDiscovery.EmptyFilterAdmitsAll | internal/core/discovery/service_extension.go:244-318 | the empty filter admits every service |
| ServiceDiscovery.OwnFilterAdmits | internal/core/discovery/service_extension.go:244-318 | the filter made of a service's own protocols, capabilities, tags, metadata and status admits it |
| ServiceDiscovery.NarrowerFilter | internal/core/discovery/service_extension.go:303-315 | adding a metadata pair or a status to a filter can only narrow what it admits |
| ServiceDiscovery.Notify | internal/core/discovery/service_extension.go:214-240 | after the loop over the channels, each channel holds the event exactly when the event was eligible for its filter and it had room; the set of channels is unchanged |
| ServiceDiscovery.BridgeDiscovery.constructor | internal/core/discovery/service_extension.go:73-81 | a new extension has no services, filters or channels and keeps the health-check configuration |
| ServiceDiscovery.BridgeDiscovery.NotifySubscribers | internal/core/discovery/service_extension.go:210-241 | a register or update event goes to the channels without a filter or with one that admits the service; any other event goes to every channel; a full channel is skipped; nothing else changes |
| ServiceDiscovery.BridgeDiscovery.RegisterBridgeService | internal/core/discovery/service_extension.go:89-114 | a registry error is returned and nothing changes; otherwise the service is stored under its id and its "register" event is routed |
| ServiceDiscovery.BridgeDiscovery.UnregisterBridgeService | internal/core/discovery/service_extension.go:117-137 | a registry error is returned and nothing changes; otherwise the id is removed and an "unregister" event goes to every channel with room |
| ServiceDiscovery.BridgeDiscovery.GetBridgeService | internal/core/discovery/service_extension.go:140-150 | the stored service for a known id, and "bridge service 'id' not found" otherwise |
| ServiceDiscovery.BridgeDiscovery.UpdateBridgeServiceStats | internal/core/discovery/service_extension.go:153-165 | an unknown id is an error and changes nothing; otherwise only that service's stats change |
| ServiceDiscovery.BridgeDiscovery.FindServices | internal/core/discovery/service_extension.go:168-181 | one entry per service the filter admits, and only those |
| ServiceDiscovery.BridgeDiscovery.RegisterServiceWatcher | internal/core/discovery/service_extension.go:184-194 | the filter and channel are stored under the id, replacing earlier ones, and it never fails |
| ServiceDiscovery.BridgeDiscovery.UnregisterServiceWatcher | internal/core/discovery/service_extension.go:197-207 | the id's filter and channel are dropped; an unknown id is not an error |
| ServiceDiscovery.RoutingMeaning | internal/core/discovery/service_extension.go:215-239 | a "register" event reaches a watcher with room exactly when it has no filter or its filter admits the service; an "unregister" event reaches every watcher with room |
| BridgeMessages.PayloadBytes | internal/bridge/message.go:80-119 | bytes are kept, a string becomes its UTF-8 bytes, nil becomes `null`, any other value its JSON encoding, and a value that cannot be encoded is the only error, with the wrapped message |
| BridgeMessages.Message.constructor | internal/bridge/message.go:92-100 | a new message is pending, of normal priority, with the given id, type, payload and time, an empty metadata map and nothing else set |
| BridgeMessages.Message.SetPayload | internal/bridge/message.go:104-123 | the payload becomes the encoded value and nothing else changes; on an encoding error the message is left as it was |
| BridgeMessages.Message.GetPayload | internal/bridge/message.go:126-132 | an empty payload is refused with `empty payload`; otherwise the answer is the decoder's |
| BridgeMessages.Message.SetExpiration | internal/bridge/message.go:135-137 | the expiration becomes the clock plus the duration and nothing else changes |
| BridgeMessages.ExpirationMeaning | internal/bridge/message.go:135-142 | after an expiration set for a positive duration the message has not expired, and it has expired exactly when the clock is past the deadline |
| BridgeMessages.ZeroNeverExpires | internal/bridge/message.go:140-142 | a message whose expiration is the zero time never expires |
| BridgeMessages.Message.AddMetadata | internal/bridge/message.go:145-150 | a nil map is replaced by an empty one, the key is set to the value, and nothing else changes |
| BridgeMessages.Message.GetMetadata | internal/bridge/message.go:153-159 | the value is found exactly when the map exists and holds the key, and then it is the stored value; otherwise it is empty |
| BridgeMessages.Message.CreateResponse | internal/bridge/message.go:162-175 | an encoding error is passed on; otherwise a fresh pending response carries the payload, names this message as its correlation and swaps source and destination |
| BridgeMessages.Message.CreateErrorResponse | internal/bridge/message.go:178-192 | a fresh error message carries the text and a `null` payload, names this message as its correlation and swaps its ends |
| BridgeMessages.MessageRouter.constructor | internal/bridge/message.go:204-208 | a new router has no handlers and no default handler |
| BridgeMessages.MessageRouter.RegisterHandler | internal/bridge/message.go:211-213 | the handler is (re)registered for its type and the default handler is untouched |
| BridgeMessages.MessageRouter.RegisterDefaultHandler | internal/bridge/message.go:216-218 | the default handler is set and the typed handlers are untouched |
| BridgeMessages.MessageRouter.Choose | internal/bridge/message.go:221-229 | the handler of the message's type is chosen exactly when one is registered; failing that the default one exactly when it is set |
| BridgeMessages.MessageRouter.RouteMessage | internal/bridge/message.go:221-234 | a chosen handler's answer is returned as it is; with none, the reply is an error response to the message naming its type |
| BridgeMessages.TypeHandlerFirst | internal/bridge/message.go:223-229 | a handler registered for the type wins over any default handler |
| ImportAudit.LineStepCorrected | tests/project_audit_test.go:577-611 | the corrected step never panics, and it agrees with the step as written wherever that one does not panic |
| ImportAudit.LineStep | tests/project_audit_test.go:577-611 | as written: a panic only inside an import block; outside one a line that is no hit opens a block exactly when it trims to `import (`; inside one `)` closes the block and any other non-hit line keeps it open |
| ImportAudit.Run | tests/project_audit_test.go:576-614 | the scan panics only at some line inside an import block, and reports the import only when some line is a hit |
| ImportAudit.RunAt | tests/project_audit_test.go:576-612 | the scan from one line on is that line's step followed by the scan of the remaining lines |
| ImportAudit.ContainsImport | tests/project_audit_test.go:571-615 | the loop's answer is Run over the text's lines, starting outside an import block, including the panic Run stands for |
| ImportAudit.ScanLine | tests/project_audit_test.go:577-611 | one iteration of the loop body: a hit, a panic, or the block state for the next line, as LineStep says |
| ImportAudit.ScanBlockLine | tests/project_audit_test.go:597-610 | a line inside a block: a quoted path equal to the one sought is a hit, an aliased path after the first quote too, and a lone quote panics on the slice |
| ImportAudit.CorrectedAgrees | tests/project_audit_test.go:571-615 | wherever the scan as written answers, the corrected scan gives the same answer |
| ImportAudit.NoImportLineNoImport | tests/project_audit_test.go:580-590 | a text with no line starting with `import` imports nothing, as written and corrected |
| ImportAudit.QuotedImportFound | tests/project_audit_test.go:585-603 | an `import (` block listing the path in quotes on a line of its own is found |
| ImportAudit.LoneQuoteLines | tests/project_audit_test.go:573-577 | the text `import (`, a lone quote, `)` splits into those three lines |
| ImportAudit.LoneQuoteSteps | tests/project_audit_test.go:585-600 | in a block, the lone quote passes both quote tests and panics as written; corrected, it is skipped |
| ImportAudit.LoneQuotePanics | tests/project_audit_test.go:598-601 | the scan as written panics on that text; the corrected one answers no |
| ImportAudit.LoneQuoteRun | tests/project_audit_test.go:585-601 | a block opening followed by a line whose step panics makes the whole scan panic |
| ImportAudit.LoneQuoteRunCorrected | tests/project_audit_test.go:585-601 | with the panicking line skipped, the three-line scan finds nothing |
| Bridges.DefaultBridgeOptions | internal/bridge/bridge.go:66-78 | the defaults: a 30-second timeout, three retries, a 1024-entry buffer and the `info` log level |
| Bridges.InitializeAll | internal/bridge/bridge.go:153-168 | in whatever order the map is ranged, the last error is untouched when every initialisation succeeds, and otherwise it is the wrapped failure of one of the failing names |
| Bridges.Bridge.constructor | internal/bridge/bridge.go:106-122 | nil options become the defaults; the bridge starts Uninitialized with no adapters, no protocols and no error |
| Bridges.Bridge.Initialize | internal/bridge/bridge.go:125-178 | a bridge that is not Uninitialized is refused and unchanged; otherwise it ends Ready, and the last error is untouched without failures, a protocol failure when a protocol failed, else an adapter failure when an adapter failed |
| Bridges.Bridge.RegisterAdapter | internal/bridge/bridge.go:181-192 | a taken name is refused with its message and the registry is unchanged; a new name is added and nothing else changes |
| Bridges.Bridge.RegisterProtocol | internal/bridge/bridge.go:195-206 | a taken name is refused with its message and the registry is unchanged; a new name is added and nothing else changes |
| Bridges.Bridge.Call | internal/bridge/bridge.go:216-301 | a bridge not Ready, an empty adapter or protocol and unknown names are refused in that order with their errors; past those checks, an encoding, sending or decoding failure is returned as `failed to encode message: `, `failed to send message: ` or `failed to decode response: ` with its error, and when all three succeed the call returns exactly the payload the protocol decodes from the adapter's answer to the encoded message, whose operation is the argument when given |
| Bridges.Bridge.Shutdown | internal/bridge/bridge.go:304-338 | a second shutdown changes nothing; the first one marks the bridge ShuttingDown and empties both registries |
| Bridges.ShutdownIsFinal | internal/bridge/bridge.go:304-311 | after shutdown, initialising again is refused, the status stays ShuttingDown and every call is refused |
| Bridges.Bridge.GetAdapter | internal/bridge/bridge.go:341-351 | found exactly when registered; otherwise the not-found error names the adapter |
| Bridges.Bridge.GetProtocol | internal/bridge/bridge.go:354-364 | found exactly when registered; otherwise the not-found error names the protocol |
| Bridges.Bridge.ListAdapters | internal/bridge/bridge.go:367-377 | each registered adapter is listed exactly once and nothing else is |
| Bridges.Bridge.ListProtocols | internal/bridge/bridge.go:380-390 | each registered protocol is listed exactly once and nothing else is |
| BridgeManager.DefaultManagerConfig | internal/bridge/manager.go:96-108 | the defaults set no default protocol or adapter and an event buffer of 100 |
| BridgeManager.Manager.constructor | internal/bridge/manager.go:73-93 | a nil configuration becomes the default one, a buffer size that is not positive becomes 100, and the manager starts with nothing registered and no bridges |
| BridgeManager.Manager.RegisterProtocol | internal/bridge/manager.go:121-144 | nil, an empty name and a taken name are refused with their messages; the protocol is added exactly when none of these holds, and nothing else changes |
| BridgeManager.Manager.RegisterAdapter | internal/bridge/manager.go:147-170 | nil, an empty name and a taken name are refused with their messages; the adapter is added exactly when none of these holds, and nothing else changes |
| BridgeManager.Resolve | internal/bridge/manager.go:183-198 | the bridge's own protocol and adapter win over the manager's defaults; the result fails exactly when one of them is empty in both places |
| BridgeManager.Manager.CreateBridge | internal/bridge/manager.go:173-254 | a nil configuration, an empty name, a missing protocol or adapter, an unregistered one and a taken id are refused in that order and change nothing; a new bridge gets a fresh id when it has none and the default timeout for one that is not positive, and when every check passes a builder failure is returned as `failed to create bridge: ` with its error, and otherwise that bridge is returned and stored with an Unknown health record |
| BridgeManager.Manager.GetBridge | internal/bridge/manager.go:257-267 | found exactly when its id is stored; otherwise the error names the id |
| BridgeManager.Manager.ListBridges | internal/bridge/manager.go:270-280 | each stored bridge appears, nothing else does, and the list is as long as the map |
| BridgeManager.Manager.DestroyBridge | internal/bridge/manager.go:283-309 | an unknown id is refused and changes nothing; otherwise the bridge and its health record are removed together |
| BridgeManager.AfterPing | internal/bridge/manager.go:399-428 | a failure adds one to the count and leaves Unhealthy from three failures on and Degraded below; a success resets the count, leaving Degraded after Unhealthy failures and Healthy otherwise; coherent records stay coherent |
| BridgeManager.Manager.CheckBridgeHealth | internal/bridge/manager.go:379-428 | a bridge without a record, or a record without a bridge, is skipped; otherwise only that bridge's record moves by AfterPing |
| BridgeManager.Manager.CheckBridgesHealth | internal/bridge/manager.go:365-376 | every bridge's record moves by its ping and every other record is kept |
| BridgeManager.ThreeFailuresUnhealthy | internal/bridge/manager.go:403-409 | three failed pings in a row make any record Unhealthy with three more failures |
| BridgeManager.RecoveryTakesTwoChecks | internal/bridge/manager.go:417-428 | an Unhealthy bridge that answers is Degraded after one check and Healthy after the next |
| BridgeManager.PingsCoherent | internal/bridge/manager.go:399-428 | whatever the outcomes, a run of pings keeps a coherent record coherent |
| BridgeManager.Manager.GetBridgeHealth | internal/bridge/manager.go:447-457 | a stored record's status without error; Unknown with the not-found error otherwise |
| BridgeManager.AfterEvent | internal/bridge/manager.go:474-533 | Connected gives Healthy with no failures, Disconnected gives Unhealthy with one more failure, an error adds a failure and gives Unhealthy from three on and Degraded below, and other events change nothing; coherence is kept |
| BridgeManager.Manager.HandleEvent | internal/bridge/manager.go:474-533 | only the named bridge's record moves, by AfterEvent, and an id without a record changes nothing |
| Plugins.Fresh | internal/bridge/plugins/plugin.go:100-109 | a new plugin is Uninitialized with no capabilities, no configuration and no error |
| Plugins.BasePlugin.constructor | internal/bridge/plugins/plugin.go:100-109 | the new plugin's state is Fresh and its capability list has no repetitions |
| Plugins.BasePlugin.FromOptions | internal/bridge/plugins/plugin.go:315-331 | the new plugin is the fresh one with empty metadata and the options applied in order |
| Plugins.ApplyOption | internal/bridge/plugins/plugin.go:290-312 | no option changes the id, the type or the status |
| Plugins.OptionsKeepIdentity | internal/bridge/plugins/plugin.go:290-331 | a run of options keeps the identity and the status, and the capability list stays free of repetitions |
| Plugins.AfterInitialize | internal/bridge/plugins/plugin.go:141-151 | from any status the plugin becomes Initialized with the given configuration, and nothing else changes |
| Plugins.BasePlugin.Initialize | internal/bridge/plugins/plugin.go:141-151 | the new state is AfterInitialize of the old one |
| Plugins.AfterStart | internal/bridge/plugins/plugin.go:154-165 | starting succeeds exactly from Initialized or Stopped, giving Started with the start time and nothing else changed; otherwise the error names the status |
| Plugins.BasePlugin.Start | internal/bridge/plugins/plugin.go:154-165 | the new state is AfterStart's; on error the state is unchanged and the error is returned |
| Plugins.AfterStop | internal/bridge/plugins/plugin.go:168-179 | stopping succeeds exactly from Started, giving Stopped with the stop time and nothing else changed; otherwise the error names the status |
| Plugins.BasePlugin.Stop | internal/bridge/plugins/plugin.go:168-179 | the new state is AfterStop's; on error the state is unchanged and the error is returned |
| Plugins.AfterCleanup | internal/bridge/plugins/plugin.go:182-194 | cleanup succeeds exactly from Stopped, empties the configuration and keeps the status; otherwise the error names the status |
| Plugins.BasePlugin.Cleanup | internal/bridge/plugins/plugin.go:182-194 | the new state is AfterCleanup's; on error the state is unchanged and the error is returned |
| Plugins.Lifecycle | internal/bridge/plugins/plugin.go:141-194 | initialise, start, stop and clean up each succeed in turn, and a cleaned-up plugin can start again |
| Plugins.BasePlugin.SupportsCapability | internal/bridge/plugins/plugin.go:204-214 | true exactly when the capability is listed |
| Plugins.AddCap | internal/bridge/plugins/plugin.go:217-229 | the capability is present afterwards, nothing else is added, the old list is a prefix, a listed capability changes nothing, and a list without repetitions stays so |
| Plugins.BasePlugin.AddCapability | internal/bridge/plugins/plugin.go:217-229 | only the capability list changes, to AddCap of the old one |
| Plugins.BasePlugin.AddCapabilities | internal/bridge/plugins/plugin.go:290-296 | only the capability list changes, by adding each capability in turn |
| Plugins.AddCapsUnion | internal/bridge/plugins/plugin.go:217-296 | adding a list gives the union, keeps a list free of repetitions, and adding the same list again changes nothing |
| Plugins.AddCapsAbsorbs | internal/bridge/plugins/plugin.go:221-223 | adding capabilities that are all listed changes nothing |
| Plugins.BasePlugin.Configure | internal/bridge/plugins/plugin.go:232-242 | the given keys are merged into the configuration, overriding old values, and nothing else changes |
| Plugins.BasePlugin.GetConfig | internal/bridge/plugins/plugin.go:245-256 | the copy holds exactly the configuration |
| Plugins.BasePlugin.SetError | internal/bridge/plugins/plugin.go:266-273 | the error is recorded, a present error moves the status to Error, and nothing else changes |
| PluginRegistry.Registry.constructor | internal/bridge/plugins/registry.go:21-28 | a new registry holds no plugins, factories or dependencies |
| PluginRegistry.Registry.RegisterPlugin | internal/bridge/plugins/registry.go:31-47 | a taken id is refused and changes nothing; a new one is stored; dependency lists stay valid |
| PluginRegistry.Registry.FindDependent | internal/bridge/plugins/registry.go:59-65 | some plugin is found exactly when some dependency list names the id, and the one found does |
| PluginRegistry.Registry.UnregisterPlugin | internal/bridge/plugins/registry.go:50-73 | an unknown id is refused; a plugin some list names is refused and kept; otherwise it is removed, while the dependency lists, its own included, stay as they were |
| PluginRegistry.Registry.UnregisterPluginCorrected | internal/bridge/plugins/registry.go:50-73 | the same answers, and a removed plugin's own dependency list goes with it, so every list belongs to a registered plugin |
| PluginRegistry.StaleDependencyBlocksUnregister | internal/bridge/plugins/registry.go:50-72 | on a fresh registry where B depends on A: unregistering B succeeds, unregistering A then fails because B's leftover list still names A, and after RemoveDependency(B, A) unregistering A succeeds |
| PluginRegistry.CorrectedUnregisterScenario | internal/bridge/plugins/registry.go:50-72 | the same steps with the corrected unregister: once B is gone, A is unregistered without any RemoveDependency |
| PluginRegistry.CorrectedUnregisterFreesDependency | internal/bridge/plugins/registry.go:59-67 | when the removed plugin's list goes too, a plugin named by no other list is no longer depended on |
| PluginRegistry.Registry.GetPlugin | internal/bridge/plugins/registry.go:76-86 | found exactly when registered; `plugin not found` otherwise |
| PluginRegistry.Registry.RegisterFactory | internal/bridge/plugins/registry.go:89-103 | a taken factory id is refused and changes nothing; a new one is stored |
| PluginRegistry.Registry.CreatePlugin | internal/bridge/plugins/registry.go:106-136 | an existing plugin id and an unknown factory are refused; a factory error is wrapped; what the factory builds is registered under the requested id and returned |
| PluginRegistry.Registry.Select | internal/bridge/plugins/registry.go:139-179 | exactly the registered plugins passing the test are listed, one entry per registered id that passes |
| PluginRegistry.Registry.ListPlugins | internal/bridge/plugins/registry.go:139-149 | every registered plugin is listed, one entry per id |
| PluginRegistry.Registry.ListPluginsByType | internal/bridge/plugins/registry.go:152-164 | exactly the registered plugins of the type are listed |
| PluginRegistry.Registry.ListPluginsByCapability | internal/bridge/plugins/registry.go:167-179 | exactly the registered plugins that support the capability are listed |
| PluginRegistry.Registry.InitializePlugin | internal/bridge/plugins/registry.go:182-205 | an unknown id is refused; otherwise that plugin is initialised with the configuration and no other changes |
| PluginRegistry.Registry.CheckDependencies | internal/bridge/plugins/registry.go:407-428 | the first dependency in list order that is missing or not started is reported, with its message |
| PluginRegistry.DependenciesReady | internal/bridge/plugins/registry.go:407-428 | no dependency is reported exactly when every dependency is registered and started |
| PluginRegistry.Registry.StartPlugin | internal/bridge/plugins/registry.go:208-236 | the plugin starts exactly when it is registered, all its dependencies are registered and started, and its own lifecycle allows it; only its state changes |
| PluginRegistry.SelfDependencyNeverStarts | internal/bridge/plugins/registry.go:407-428 | a plugin that lists itself as a dependency can never be started |
| PluginRegistry.Registry.CheckReverseDependencies | internal/bridge/plugins/registry.go:431-453 | an error exactly when some started plugin lists the id, and the message names one such plugin |
| PluginRegistry.Registry.StopPlugin | internal/bridge/plugins/registry.go:239-267 | the plugin stops exactly when it is registered, no started plugin depends on it, and it is started; only its state changes |
| PluginRegistry.Registry.CleanupPlugin | internal/bridge/plugins/registry.go:270-293 | the plugin is cleaned up exactly when registered and stopped; only its state changes |
| PluginRegistry.Registry.AddDependency | internal/bridge/plugins/registry.go:296-330 | both plugins must be registered; the dependency is appended once to the plugin's list, a missing list being created first |
| PluginRegistry.SwapRemove | internal/bridge/plugins/registry.go:347-348 | the list loses one entry and keeps every other, as a multiset |
| PluginRegistry.SwapRemoveDistinct | internal/bridge/plugins/registry.go:344-348 | in a list without repetitions, removing one entry removes that value only and creates no repetitions |
| PluginRegistry.Find | internal/bridge/plugins/registry.go:344-345 | no position exactly when the value is absent, and the position found holds it |
| PluginRegistry.Registry.RemoveDependency | internal/bridge/plugins/registry.go:333-361 | a listed dependency is swap-removed at its first position in the list; an unlisted one or a missing list changes nothing |
| PluginRegistry.Registry.GetDependencies | internal/bridge/plugins/registry.go:364-382 | an unknown plugin is refused; otherwise its list, empty when it has none |
| PluginRegistry.Registry.GetReverseDependencies | internal/bridge/plugins/registry.go:385-404 | an unknown plugin is refused; otherwise exactly the plugins whose lists name it, each once |
| ProxyManager.FirstHealthySpec | archive/internal/proxy/manager.go:132-146 | the offset the round robin stops at is healthy and every offset before it within the round is not; no offset is found exactly when every remaining one is unhealthy |
| ProxyManager.StepWraps | archive/internal/proxy/manager.go:137 | the cursor step `(current + 1) % len` moves one place on round the ring, and after a whole round it is back where it started |
| ProxyManager.EveryIndexReached | archive/internal/proxy/manager.go:135-142 | one round from any cursor visits every target index |
| ProxyManager.NoneMeansAllDown | archive/internal/proxy/manager.go:124-149 | the round robin finds no target exactly when every target is unhealthy |
| ProxyManager.AllUpRotates | archive/internal/proxy/manager.go:135-140 | with every target healthy, the target at the cursor is the one served |
| ProxyManager.ProxyRoute.constructor | archive/internal/proxy/manager.go:70-75 | a route keeps its id, path, targets and mode, with the cursor at 0 |
| ProxyManager.ProxyRoute.GetNextTarget | archive/internal/proxy/manager.go:124-149 | no target and an unchanged cursor for an empty route; otherwise the first healthy target counted round from the cursor, with the cursor just past it, or no target and the cursor back where it started when all are down; the targets themselves are unchanged |
| ProxyManager.ProxyRoute.MarkDown | archive/internal/proxy/manager.go:193-198 | the proxy's error handler marks exactly the failed target unhealthy and stamps its check time; nothing else changes |
| ProxyManager.BuildTargets | archive/internal/proxy/manager.go:54-68 | one healthy target per URL, in order, with its own id and the current time; the error of the first URL that does not parse when one does not |
| ProxyManager.Manager.constructor | archive/internal/proxy/manager.go:42-47 | a new manager has no routes |
| ProxyManager.Manager.AddRoute | archive/internal/proxy/manager.go:50-79 | an unparsable URL is an error and changes nothing; otherwise a fresh route with cursor 0 and the built targets is stored at the path, replacing any route there |
| ProxyManager.Manager.RemoveRoute | archive/internal/proxy/manager.go:82-86 | the route at the path is gone and every other route stays |
| ProxyManager.Manager.UpdateRoute | archive/internal/proxy/manager.go:89-121 | an unknown path gives "route not found", an unparsable URL its error, and neither changes any route; otherwise the route at the path gets the new targets and mode, its cursor goes back to 0, and every other route is unchanged |
| ProxyManager.Manager.SelectTarget | archive/internal/proxy/manager.go:152-176 | 404 for an unknown path; 503 for a route with no target; a route without load balancing serves its first target whatever its health and keeps its cursor; a load-balanced one serves the round robin's choice and its cursor moves one past the target served, or stays when none is healthy; no other route's cursor moves |
| ProtocolBuffers.DefaultServiceManifest | QUANT_WW_GO/internal/bridge/protocols/protocol_buffer.go:539-549 | three services, token analyzer, risk analyzer and discovery in that order and with those types, carrying 3, 2 and 4 methods, at version v1 and stamped with the given time |
| ProtocolBuffers.GetMethodByName | QUANT_WW_GO/internal/bridge/protocols/protocol_buffer.go:552-559 | the first method whose name equals the name, or equals it ignoring case; none only when no method's name matches |
| ProtocolBuffers.GetServiceByName | QUANT_WW_GO/internal/bridge/protocols/protocol_buffer.go:562-569 | the first service whose name equals the name, or equals it ignoring case; none only when no service's name matches |
| ProtocolBuffers.GetServiceByType | QUANT_WW_GO/internal/bridge/protocols/protocol_buffer.go:572-579 | the first service of exactly that type; none only when no service has it |
| ProtocolBuffers.FoldedNameMatches | QUANT_WW_GO/internal/bridge/protocols/protocol_buffer.go:554-564 | two names that differ only in ASCII letter case match each other for the lookups |
| ProtocolBuffers.RequestStream | QUANT_WW_GO/internal/bridge/protocols/protocol_buffer.go:607-610 | the request is a stream exactly for client-streaming and bidirectional methods |
| ProtocolBuffers.ResponseStream | QUANT_WW_GO/internal/bridge/protocols/protocol_buffer.go:611-613 | the response is a stream exactly for server-streaming and bidirectional methods |
| ProtocolBuffers.GenerateProto | QUANT_WW_GO/internal/bridge/protocols/protocol_buffer.go:589-626 | the text written is Proto: the header, one block per method in order, and the closing brace |
| ProtocolBuffers.ProtoPackage | QUANT_WW_GO/internal/bridge/protocols/protocol_buffer.go:593-619 | the text opens with the proto3 syntax line and a package named after the lower-cased service type, and ends by closing the service |
| ProtocolBuffers.DeprecatedOptionIff | QUANT_WW_GO/internal/bridge/protocols/protocol_buffer.go:601-605 | a method's block starts with its comment, and the deprecation option follows the comment exactly when the method is deprecated |
| ProtocolBuffers.EveryMethodDeclared | QUANT_WW_GO/internal/bridge/protocols/protocol_buffer.go:600-617 | every method of the service appears in the text as its rpc line |
| EnvSecurity.GetEnvironmentType | internal/security/env_security.go:32-42 | `production` and `staging` select those environments; every other value of QUANT_ENV, the empty one included, selects development |
| EnvSecurity.IsLocalEnvironment | internal/security/env_security.go:45-58 | the machine is local exactly when its host name can be read and is `localhost` or `127.0.0.1` |
| EnvSecurity.GetSecurityConfig | internal/security/env_security.go:61-119 | the configuration carries the detected environment, and each environment gets its fixed settings: production all on with strict rate limiting and verbose audit logging, staging everything but the strict firewall with basic levels, development all off with rate limiting off and verbose audit logging |
| EnvSecurity.EnforceSecures | internal/security/env_security.go:101-116 | the production override leaves authentication, admin credentials and TLS switched on and changes no other field; it logs a warning exactly when one of the three was off |
| EnvSecurity.NoWarnings | internal/security/env_security.go:69-116 | the production defaults are already secure, so the override never fires and no warning is ever logged |
| EnvSecurity.ValidateProductionSecurity | internal/security/env_security.go:122-136 | an error exactly for production without authentication or without TLS; a missing authentication is reported before a missing TLS |
| EnvSecurity.ConfigValidates | internal/security/env_security.go:61-136 | every configuration GetSecurityConfig produces, for any environment and host, passes ValidateProductionSecurity |
| DashboardFilters.Member | archive/internal/dashboard/types.go:63-68 | the linear search with `break` finds the value exactly when it is in the list |
| DashboardFilters.FilterMetrics | archive/internal/dashboard/types.go:60-94 | a metric passes exactly when a non-empty type list holds its type, a non-empty source list holds its source, and a threshold set for its type is not above its value |
| DashboardFilters.MetricPasses | archive/internal/dashboard/types.go:60-94 | the empty filter passes every metric; a non-empty type or source list that lacks the metric's type or source rejects it; a passing metric is not below the threshold set for its type |
| DashboardFilters.WiderListsPassMore | archive/internal/dashboard/types.go:61-86 | adding a type and a source to non-empty lists never filters out a metric that passed |
| DashboardFilters.MetricFilterCases | archive/internal/dashboard/types.go:60-94 | the empty filter passes everything; a missing type, a missing source or a value under the threshold each rejects |
| DashboardFilters.SeverityLevel | archive/internal/dashboard/types.go:99-107 | low, medium, high and critical are levels 1 to 4; any other name reads as 0, as a missing Go map key does |
| DashboardFilters.FilterSecurityEvent | archive/internal/dashboard/types.go:97-115 | without a minimum severity every event passes; with one, an event passes exactly when its level is at least the minimum's |
| DashboardFilters.LowerMinimumPassesMore | archive/internal/dashboard/types.go:97-115 | lowering the minimum severity lets through every event that passed before |
| DashboardFilters.SeverityExtremes | archive/internal/dashboard/types.go:97-115 | a critical event always passes; an event of unknown severity passes only when the minimum is unknown too |
| RateLimiting.DefaultRateLimiterConfig | internal/security/firewall/rate_limiter_impl.go:31-39 | the defaults are all positive: 100 requests a minute, cleanup every ten minutes, 10000 keys, a burst factor of 1.5 |
| RateLimiting.WithDefaults | internal/security/firewall/rate_limiter_impl.go:72-84 | every non-positive limit, interval, cleanup interval and burst factor is replaced by its default, positive settings are kept, and the table size is left as given |
| RateLimiting.MemoryRateLimiter.constructor | internal/security/firewall/rate_limiter_impl.go:70-100 | a new limiter has an empty table and the defaulted configuration |
| RateLimiting.TruncDiv | internal/security/firewall/rate_limiter_impl.go:168 | the float-to-int conversion rounds toward zero on both signs |
| RateLimiting.BurstNotBelowLimit | internal/security/firewall/rate_limiter_impl.go:168 | a burst factor of at least one never gives a burst limit below the limit |
| RateLimiting.BurstLimit | internal/security/firewall/rate_limiter_impl.go:168 | the limit times the burst factor, truncated toward zero as Go's `int(...)` conversion does |
| RateLimiting.Admit | internal/security/firewall/rate_limiter_impl.go:151-178 | once the interval has passed a new one starts with this request counted and the call's limit and period; otherwise the request is let through exactly when the count is under the larger of the limit and the burst limit, counted and time-stamped, and a refused request changes nothing |
| RateLimiting.MemoryRateLimiter.Allow | internal/security/firewall/rate_limiter_impl.go:103-179 | non-positive limits and periods take the defaults; an unknown key is let through with a new entry, evicting an oldest key when the table is full; a known key moves by Admit; the table never grows past its bound |
| RateLimiting.MemoryRateLimiter.OldestKey | internal/security/firewall/rate_limiter_impl.go:123-133 | the key found has the earliest last request of the table |
| RateLimiting.BurstAllowsUpToCap | internal/security/firewall/rate_limiter_impl.go:160-178 | within an interval, of k requests exactly as many are let through as fit under the larger of the limit and the burst limit |
| RateLimiting.DefaultKeyAllows150 | internal/security/firewall/rate_limiter_impl.go:31-179 | under the defaults, of k+1 requests for a new key at one instant at most 150 are let through |
| RateLimiting.AdmitCountsDown | internal/security/firewall/rate_limiter_impl.go:160-165 | a request under the limit is let through and leaves one fewer under it |
| RateLimiting.MemoryRateLimiter.Reset | internal/security/firewall/rate_limiter_impl.go:182-192 | a known key's count drops to zero and its interval starts now; an unknown key changes nothing |
| RateLimiting.MemoryRateLimiter.GetRemaining | internal/security/firewall/rate_limiter_impl.go:195-221 | an unknown key has the default limit and no wait; after the interval, the entry's limit and no wait; within it, what is left under the limit, never negative, and the non-negative time to the interval's end |
| RateLimiting.MemoryRateLimiter.SetLimit | internal/security/firewall/rate_limiter_impl.go:224-241 | a known key keeps its count and gets the new limit and interval; an unknown one starts with no requests now |
| RateLimiting.MemoryRateLimiter.RemoveKey | internal/security/firewall/rate_limiter_impl.go:244-249 | exactly that key is removed |
| RateLimiting.MemoryRateLimiter.StaleKeys | internal/security/firewall/rate_limiter_impl.go:272-279 | exactly the keys idle for more than three of their intervals are collected |
| RateLimiting.MemoryRateLimiter.Cleanup | internal/security/firewall/rate_limiter_impl.go:267-288 | exactly the stale keys are removed and every other entry is kept unchanged |
| RateLimiting.MemoryRateLimiter.GetStats | internal/security/firewall/rate_limiter_impl.go:296-310 | the number of keys and the configuration |
| SecurityEvents.EventProcessor.constructor | QUANT_WW_GO/internal/security/implementations.go:136-141 | a new processor has an empty history and the given capacity |
| SecurityEvents.Store | QUANT_WW_GO/internal/security/implementations.go:184-189 | the history after storing is the last entries of the old one plus the event, growing by one until it reaches the capacity and staying there |
| SecurityEvents.EventProcessor.StoreEvent | QUANT_WW_GO/internal/security/implementations.go:180-192 | the history becomes Store of the old one, stays within capacity, and ends with the event when the capacity is positive |
| SecurityEvents.StoreAllKeepsLast | QUANT_WW_GO/internal/security/implementations.go:180-192 | a processor fed a run of events keeps exactly the last capacity-many of them, in order |
| SecurityEvents.SuffixAppend | QUANT_WW_GO/internal/security/implementations.go:184 | a suffix of all but the last element, with the last appended, is the suffix of the whole |
| SecurityEvents.SuffixDrop | QUANT_WW_GO/internal/security/implementations.go:188 | dropping the first element of a suffix gives the next suffix |
| SecurityEvents.MatchingStep | QUANT_WW_GO/internal/security/implementations.go:201-208 | the matches of one more history entry are the old matches plus that entry when it passes |
| SecurityEvents.MatchingPrefix | QUANT_WW_GO/internal/security/implementations.go:201-208 | the matches of a prefix of the history are a prefix of the matches |
| SecurityEvents.MatchingMember | QUANT_WW_GO/internal/security/implementations.go:201-234 | an event is matched exactly when the history holds it and it passes the filter |
| SecurityEvents.NoFilterKeepsAll | QUANT_WW_GO/internal/security/implementations.go:215-234 | with no filter keys every stored event matches |
| SecurityEvents.EventProcessor.GetHistory | QUANT_WW_GO/internal/security/implementations.go:195-212 | the matching events in history order, cut off once the limit is reached, and at least one when there is a match since the limit is checked only after an append |
| SecurityEvents.HistoryMeaning | QUANT_WW_GO/internal/security/implementations.go:195-212 | at most the limit (at least one) events, each stored and passing the filter, and all matches when there are no more than the limit |
| SecurityEvents.EventProcessor.DetectPatterns | QUANT_WW_GO/internal/security/implementations.go:237-255 | the patterns are Patterns of the event and the user's history |
| SecurityEvents.PatternsMeaning | QUANT_WW_GO/internal/security/implementations.go:241-251 | the multiple-failures pattern is reported exactly for an authentication failure with three or more authentication failures of the last hour in the history |
| SecurityEvents.EventProcessor.Process | QUANT_WW_GO/internal/security/implementations.go:144-177 | the enhanced event carries the event, the user's first ten stored events (none without a user id), the other non-empty addresses they came from, the detected patterns, and a zero analysis |
| SecurityEvents.PreviousIPsFromHistory | QUANT_WW_GO/internal/security/implementations.go:164-168 | every previous address is non-empty, differs from the event's and comes from a history entry |
| SecurityEvents.UserHistoryIsTheUsers | QUANT_WW_GO/internal/security/implementations.go:155-161 | the user history attached holds only the user's own events |
| SecurityEvents.AlertManager.constructor | QUANT_WW_GO/internal/security/implementations.go:268-272 | a new manager holds no alerts |
| SecurityEvents.TypeDesc | QUANT_WW_GO/internal/security/implementations.go:374-388 | each known event type has its phrase, and exactly the unknown ones read as a generic security event |
| SecurityEvents.RiskDesc | QUANT_WW_GO/internal/security/implementations.go:390-401 | medium, high and critical have their names, and every other level reads as low |
| SecurityEvents.Description | QUANT_WW_GO/internal/security/implementations.go:371-414 | the description starts with the type phrase and the risk level |
| SecurityEvents.PlainDescription | QUANT_WW_GO/internal/security/implementations.go:371-414 | without user, address or patterns the description is the head phrase alone |
| SecurityEvents.AlertManager.CreateAlert | QUANT_WW_GO/internal/security/implementations.go:275-299 | a new alert under a fresh id copies the event's type, level, source and tags, names the event, is New and unassigned, and is stored |
| SecurityEvents.AlertManager.UpdateAlertStatus | QUANT_WW_GO/internal/security/implementations.go:302-315 | an unknown id is refused and changes nothing; otherwise only that alert's status changes |
| SecurityEvents.AlertManager.AssignAlert | QUANT_WW_GO/internal/security/implementations.go:318-331 | an unknown id is refused and changes nothing; otherwise only that alert's assignee changes |
| SecurityEvents.AlertManager.GetActiveAlerts | QUANT_WW_GO/internal/security/implementations.go:334-368 | exactly the stored alerts that are neither resolved nor false positives and pass the filter, one entry per such stored alert |
| SecurityEvents.ClosedAlertIsNotActive | QUANT_WW_GO/internal/security/implementations.go:302-345 | an alert moved to resolved or false positive is in no active listing |
| SecurityEvents.Check | QUANT_WW_GO/internal/security/implementations.go:438-491 | a locked key is blocked and nothing changes; a success unlocks and clears the attempts when configured; a failure keeps the attempts inside the window plus this one, blocks exactly when they reach the maximum, and then locks the key now when a lockout is configured |
| SecurityEvents.BruteForceDetector.constructor | QUANT_WW_GO/internal/security/implementations.go:429-435 | a new detector has the configuration and no attempts or locks |
| SecurityEvents.BruteForceDetector.CheckAttempt | QUANT_WW_GO/internal/security/implementations.go:438-491 | the answer and the new maps are Check's for the user-and-resource key |
| SecurityEvents.KeepAfter | QUANT_WW_GO/internal/security/implementations.go:467-474 | exactly the attempt times after the cut-off, in order |
| SecurityEvents.FailureInWindow | QUANT_WW_GO/internal/security/implementations.go:462-488 | a failure on an unlocked key whose attempts are all inside the window appends this one, blocks exactly when that reaches the maximum, and locks only then |
| SecurityEvents.FailuresAccumulate | QUANT_WW_GO/internal/security/implementations.go:462-488 | fewer failures than the maximum inside one window are all kept and lock nothing |
| SecurityEvents.MaxthFailureBlocks | QUANT_WW_GO/internal/security/implementations.go:476-486 | the failure that reaches the maximum inside the window is blocked and locks the key at its own time when a lockout is configured |
| SecurityEvents.CountAfterFailure | QUANT_WW_GO/internal/security/implementations.go:462-512 | right after a failure, the count with a positive window sees every stored attempt |
| SecurityEvents.CountAfter | QUANT_WW_GO/internal/security/implementations.go:503-509 | the number of attempt times after the cut-off |
| SecurityEvents.BruteForceDetector.GetAttemptCount | QUANT_WW_GO/internal/security/implementations.go:494-512 | the key's stored failures still inside the window |
| SecurityEvents.BruteForceDetector.Reset | QUANT_WW_GO/internal/security/implementations.go:515-524 | exactly the key's attempts and lock are forgotten |
| SecurityEvents.VulnerabilityDetector.constructor | QUANT_WW_GO/internal/security/implementations.go:596-600 | a new detector knows no vulnerabilities |
| SecurityEvents.VulnerabilityDetector.TrackExploitAttempt | QUANT_WW_GO/internal/security/implementations.go:609-619 | a known vulnerability gets one more exploit attempt and nothing else changes; an unknown id changes nothing |
| SecurityEvents.VulnerabilityDetector.GetActiveVulnerabilities | QUANT_WW_GO/internal/security/implementations.go:622-635 | exactly the unresolved vulnerabilities of the resource type, one entry per such stored vulnerability |
| FirewallTypes.ParseIPRange | internal/security/firewall/firewall.go:107-130 | a CIDR pattern gives its network; failing that, a single address gives a /32 or /128 network; the result is missing exactly when the pattern is neither |
| FirewallTypes.ValidateByType | internal/security/firewall/firewall.go:104-159 | an IP rule needs a network, parsed from its pattern when it has none; URL, header and content rules need a pattern, which must compile in the first store; rate rules need a positive limit and period; geo rules countries; other types pass; only the IP network is ever filled in, and failures are ErrInvalidRule |
| FirewallTypes.RuleHandles | internal/security/firewall/firewall.go:277-283 | every rule's handle appears, nothing else does, once per id, in map order: the handles of an enumeration of the ids that lists each id exactly once |
| FirewallTypes.InsertDesc | internal/security/firewall/firewall.go:166-168 | inserting keeps every entry and adds the new one |
| FirewallTypes.StableSortDesc | internal/security/firewall/firewall.go:163-169 | the stable sort is a permutation of the index |
| FirewallTypes.StableSortSorted | internal/security/firewall/firewall.go:163-169 | the stable sort leaves the index in non-increasing priority |
| FirewallTypes.InsertDescSorted | internal/security/firewall/firewall.go:166-168 | inserting into a sorted index keeps it sorted |
| FirewallTypes.InsertDescAtEnd | internal/security/firewall/firewall.go:166-168 | an entry no higher than all others goes at the end, after the equal ones, as a stable sort places it |
| FirewallTypes.StableSortOfSorted | internal/security/firewall/firewall.go:163-169 | sorting an already sorted index changes nothing |
| FirewallTypes.IndexOfId | internal/security/firewall/firewall.go:185-251 | the first index position whose rule has the id, and none exactly when no position has one |
| FirewallTypes.Without | internal/security/firewall/firewall.go:188-226 | removing a position shifts the later entries down by one and keeps the earlier ones |
| FirewallTypes.Replace | internal/security/firewall/firewall.go:246-251 | replacing a position changes that entry only |
| FirewallTypes.WithoutKeepsSorted | internal/security/firewall/firewall.go:188-226 | removing an entry from a sorted index keeps it sorted |
| FirewallTypes.Deref | internal/security/firewall/firewall.go:277-283 | the rules an index names, position by position |
| FirewallTypes.DerefPerm | internal/security/firewall/firewall.go:277-288 | reordering the handles, as the priority sort does, reorders the rules they name: the same multiset of rules |
| RuleFirewall.PrepareRule | internal/security/firewall/firewall.go:98-160 | a prepared rule is enabled, keeps its id, type, priority and every other field but the parsed network, and an IP rule has its network |
| RuleFirewall.FirewallImpl.constructor | internal/security/firewall/firewall.go:43-59 | a new firewall holds no rules and an empty index |
| RuleFirewall.FirewallImpl.Allocate | internal/security/firewall/firewall.go:86 | a new rule gets a handle no stored rule has, and nothing else changes |
| RuleFirewall.FirewallImpl.AddRule | internal/security/firewall/firewall.go:62-95 | nil, an empty id, type or action are invalid, a taken id is a duplicate, and a rule that fails preparation is refused, all changing nothing; otherwise the prepared rule, stamped now, is stored under its id and appended to its type's slice, which is then stably sorted by priority |
| RuleFirewall.FirewallImpl.RemoveFromIndex | internal/security/firewall/firewall.go:185-191 | the first entry with the id leaves the slice; a slice without one is left as it is |
| RuleFirewall.FirewallImpl.RemoveRule | internal/security/firewall/firewall.go:172-194 | an unknown id is refused and changes nothing; otherwise the id leaves the map and its first entry leaves the slice of the stored rule's type |
| RuleFirewall.FirewallImpl.UpdateRule | internal/security/firewall/firewall.go:197-255 | nil or an empty id is invalid and an unknown id not found; the prepared rule keeps the creation time; a changed type moves it between slices and leaves the id map alone; a changed priority re-sorts the slice without putting the new rule in it; otherwise the id and the first slice entry get the new rule |
| RuleFirewall.FirewallImpl.MoveToType | internal/security/firewall/firewall.go:221-236 | the id leaves the old type's slice, the new rule joins the end of the new one, both are re-sorted, and the id map is untouched |
| RuleFirewall.FirewallImpl.SortIndex | internal/security/firewall/firewall.go:163-169 | the slice, when present, becomes its stable sort by priority and is sorted |
| RuleFirewall.FirewallImpl.SetIndex | internal/security/firewall/firewall.go:89 | exactly one slice is assigned |
| RuleFirewall.FirewallImpl.UnsetRule | internal/security/firewall/firewall.go:182 | exactly one id is deleted |
| RuleFirewall.FirewallImpl.SetRule | internal/security/firewall/firewall.go:86 | exactly one id is assigned |
| RuleFirewall.FirewallImpl.ReplaceInIndex | internal/security/firewall/firewall.go:246-251 | the first entry with the id is replaced by the new rule; a slice without one is left as it is |
| RuleFirewall.FirewallImpl.UpdateRuleCorrected | internal/security/firewall/firewall.go:197-255 | the same refusals; on success the id names the new rule and the type index is CorrectedIndex of the old one: the old rule leaves its type's slice, the new one joins its own type's slice, both are sorted by priority, every other slice is unchanged, and the slices' contents change by exactly that one removal and one addition |
| RuleFirewall.CorrectedIndexContents | internal/security/firewall/firewall.go:219-243 | after the corrected update's index change the new type's slice exists, every slice of another type is as it was, the old type's slice loses exactly the id's first entry and the new type's slice gains exactly the new handle (one slice doing both when the type is kept) |
| RuleFirewall.SortKeepsMember | internal/security/firewall/firewall.go:163-169 | sorting neither adds nor loses an entry |
| RuleFirewall.SortKeepsSlice | internal/security/firewall/firewall.go:163-169 | a sorted slice still holds only stored rules of its type |
| RuleFirewall.SortKeepsStored | internal/security/firewall/firewall.go:284-286 | a sorted list still names only stored rules |
| RuleFirewall.SortedRules | internal/security/firewall/firewall.go:284-286 | the rules of a sorted list come in non-increasing priority |
| RuleFirewall.FirewallImpl.GetRule | internal/security/firewall/firewall.go:258-270 | an unknown id is not found; otherwise a copy of the stored rule |
| RuleFirewall.FirewallImpl.ListRules | internal/security/firewall/firewall.go:273-289 | one copy per id, each of a stored rule, every stored rule present, in non-increasing priority, and as a multiset exactly the rules stored under the ids, each id counted once |
| RuleFirewall.FirewallImpl.SetEnabled | internal/security/firewall/firewall.go:292-321 | an unknown id is refused and changes nothing; otherwise the stored rule, which the index shares, gets the flag and the update time, and nothing else changes |
| RuleFirewall.FirewallImpl.EnableRule | internal/security/firewall/firewall.go:292-305 | an unknown id is refused; otherwise the shared rule is enabled and stamped |
| RuleFirewall.FirewallImpl.DisableRule | internal/security/firewall/firewall.go:308-321 | an unknown id is refused; otherwise the shared rule is disabled and stamped |
| RuleFirewall.FirewallImpl.Evaluate | internal/security/firewall/firewall.go:324-371 | no request allows with an error reason; otherwise the first verdict among IP, URL, header, rate, geo and content rules in that order, and allow with `No rules matched` when none has one |
| RuleFirewall.FirewallImpl.EvaluateIPRules | internal/security/firewall/firewall.go:374-399 | nothing without IP rules or an address; otherwise the verdict of the first enabled rule whose network holds the address, in index order |
| RuleFirewall.IPItem | internal/security/firewall/firewall.go:384-394 | a rule matches exactly when it is enabled and its network holds the request's address, and the verdict carries its action and the rule |
| RuleFirewall.FirewallImpl.EvaluateURLRules | internal/security/firewall/firewall.go:402-433 | nothing without URL rules or a URL; otherwise the first enabled rule whose pattern compiles and matches the URL |
| RuleFirewall.URLItem | internal/security/firewall/firewall.go:412-428 | a rule matches exactly when enabled and its compiled pattern matches the URL |
| RuleFirewall.FirewallImpl.EvaluateHeaderRules | internal/security/firewall/firewall.go:436-493 | nothing without header rules or headers; otherwise the first enabled rule whose header matches |
| RuleFirewall.HeaderItem | internal/security/firewall/firewall.go:446-488 | a rule needs to be enabled and name a header the request carries; then it matches by pattern when it has one, else by exact value when it has one, else by presence alone |
| RuleFirewall.RateKey | internal/security/firewall/firewall.go:510-528 | the key by the rule's pattern: address, session, user, a named header's value or the path, falling back to the address; empty only for a header the request lacks |
| RuleFirewall.FirewallImpl.EvaluateRateRules | internal/security/firewall/firewall.go:496-547 | each enabled rule with a key asks the limiter in index order, and the first refusal is the verdict with the limiter's retry-after |
| RuleFirewall.FirewallImpl.EvaluateGeoRules | internal/security/firewall/firewall.go:550-577 | nothing without geo rules or a country; otherwise the first enabled rule listing the country, compared without regard to case |
| RuleFirewall.GeoItem | internal/security/firewall/firewall.go:560-572 | a rule matches exactly when enabled and it lists the country up to case |
| RuleFirewall.HasCountry | internal/security/firewall/firewall.go:564-568 | true exactly when some listed country equals the request's up to case |
| RuleFirewall.FirewallImpl.EvaluateContentRules | internal/security/firewall/firewall.go:580-624 | nothing without content rules; otherwise the first enabled rule whose compiled pattern matches the user agent or else the path |
| RuleFirewall.ContentItem | internal/security/firewall/firewall.go:590-619 | a rule matches exactly when enabled, its pattern compiles and it matches a non-empty user agent or path, and a user-agent match is reported as such |
| RuleFirewallProps.IPFromRule | internal/security/firewall/firewall.go:383-395 | an IP verdict names an enabled rule stored in the index |
| RuleFirewallProps.URLFromRule | internal/security/firewall/firewall.go:412-428 | a URL verdict names an enabled rule stored in the index |
| RuleFirewallProps.HeaderFromRule | internal/security/firewall/firewall.go:446-488 | a header verdict names an enabled rule stored in the index |
| RuleFirewallProps.GeoFromRule | internal/security/firewall/firewall.go:559-572 | a geo verdict names an enabled rule stored in the index |
| RuleFirewallProps.ContentFromRule | internal/security/firewall/firewall.go:592-619 | a content verdict names an enabled rule stored in the index |
| RuleFirewallProps.RateScanFromRule | internal/security/firewall/firewall.go:505-544 | a rate verdict is logged as a warning and names an enabled rule of the scanned slice |
| RuleFirewallProps.RateFromRule | internal/security/firewall/firewall.go:496-547 | a rate verdict names an enabled rule stored in the index |
| RuleFirewallProps.MatchedRuleIsEnabled | internal/security/firewall/firewall.go:324-371 | whatever the request, a verdict naming a rule names an enabled rule of the index, and one naming none allows the request |
| RuleFirewallProps.IPFirstMatchWins | internal/security/firewall/firewall.go:340-395 | the first enabled IP rule in index order whose network holds the address decides the request, before any other rule type |
| RuleFirewallProps.AllowedNeverThrottled | internal/security/firewall/firewall.go:530-543 | a limiter that allows every call never produces a rate verdict |
| RuleFirewallProps.GeoIgnoresCase | internal/security/firewall/firewall.go:564-566 | two countries equal up to case match the same geo rules |
| RuleFirewallScenarios.AddTwo | internal/security/firewall/firewall.go:86-169 | two rules added in turn, the second of higher priority, end up second-first in their slice |
| RuleFirewallScenarios.PriorityUpdateUnsortsIndex | internal/security/firewall/firewall.go:237-252 | raising a rule's priority above its neighbour's leaves the old rule in the slice; updating it again with that priority puts the new rule where the old one was, so the slice ends out of priority order |
| RuleFirewallScenarios.FirstPriorityUpdate | internal/security/firewall/firewall.go:237-240 | the priority update re-sorts the slice but does not put the new rule in it |
| RuleFirewallScenarios.SecondPriorityUpdate | internal/security/firewall/firewall.go:241-252 | the same-priority update swaps the new rule in for the old and leaves the slice unsorted |
| RuleFirewallScenarios.TypeUpdateKeepsOldRule | internal/security/firewall/firewall.go:221-270 | after a type change the id still names the old rule, so a lookup reports the old type |
| BasicFirewall.PrepareRule | internal/security/firewall/firewall_impl.go:100-169 | a prepared rule is enabled, takes direction inbound and priority 100 when those are unset, keeps its id and type, and an IP rule has its network; a URL, header or content rule is refused exactly when it has no pattern |
| BasicFirewall.PlaceMax | internal/security/firewall/firewall_impl.go:180-184 | one pass of the outer loop leaves the highest priority of the suffix at its head, keeps the prefix and permutes the array |
| BasicFirewall.SortByPriority | internal/security/firewall/firewall_impl.go:172-186 | the exchange sort leaves the array in non-increasing priority and a permutation of what it was |
| BasicFirewall.ConsistentRemove | internal/security/firewall/firewall_impl.go:345-370 | removing a rule from the id map and the first entry with its id from its slice keeps the id map and the index in agreement |
| BasicFirewall.ConsistentAdd | internal/security/firewall/firewall_impl.go:86-93 | storing a fresh rule under a new id and appending it to its slice keeps the id map and the index in agreement |
| BasicFirewall.ConsistentMove | internal/security/firewall/firewall_impl.go:430-450 | putting a fresh rule in place of the one under its id, out of the old slice and into its type's, keeps the agreement |
| BasicFirewall.ConsistentRestore | internal/security/firewall/firewall_impl.go:382-400 | a rule changed in place with its id and type kept leaves the agreement intact |
| BasicFirewall.FindCurrent | internal/security/firewall/firewall_impl.go:358-365 | under the agreement the first entry with an id in its rule's slice is the rule under that id, and it occurs once |
| BasicFirewall.Firewall.constructor | internal/security/firewall/firewall_impl.go:27-48 | a new firewall has both maps empty, which agree |
| BasicFirewall.Firewall.Allocate | internal/security/firewall/firewall_impl.go:87 | a new rule gets a handle no stored rule has, and nothing else changes |
| BasicFirewall.Firewall.SetIndex | internal/security/firewall/firewall_impl.go:90 | exactly one slice is assigned |
| BasicFirewall.Firewall.SetRule | internal/security/firewall/firewall_impl.go:87 | exactly one id is assigned |
| BasicFirewall.Firewall.UnsetRule | internal/security/firewall/firewall_impl.go:355 | exactly one id is deleted |
| BasicFirewall.Firewall.SortIndex | internal/security/firewall/firewall_impl.go:172-186 | only slice `t` changes, and it becomes a permutation of itself in non-increasing priority |
| BasicFirewall.Firewall.AppendAndSort | internal/security/firewall/firewall_impl.go:90-93 | the handle joins the end of its type's slice, which is then sorted, and no other slice changes |
| BasicFirewall.Firewall.RemoveFromIndex | internal/security/firewall/firewall_impl.go:358-366 | the first entry with the id leaves the slice; a slice without one is left |
| BasicFirewall.Firewall.AddRule | internal/security/firewall/firewall_impl.go:51-97 | nil or an empty type or action is invalid, a taken id (the generated one when none is given) a duplicate, a failed preparation refused, each changing nothing; otherwise the prepared rule, with the creation time kept when set, is stored under its id and sorted into its slice, and the agreement between id map and index is kept |
| BasicFirewall.Firewall.RemoveRule | internal/security/firewall/firewall_impl.go:345-370 | an unknown id is refused and changes nothing; otherwise the id leaves the map and its first entry leaves the slice of its type, keeping the agreement |
| BasicFirewall.Firewall.UpdateRule | internal/security/firewall/firewall_impl.go:407-454 | nil or an empty id is invalid and an unknown id not found; on success the id names the prepared rule; a changed type moves the index entry; a changed priority appends the new rule beside the old; otherwise the index is left as it was |
| BasicFirewall.Firewall.UpdateRuleCorrected | internal/security/firewall/firewall_impl.go:407-454 | the same refusals; on success the old entry leaves its slice and the new rule joins its type's slice in priority order, keeping the agreement |
| BasicFirewall.Firewall.MoveRule | internal/security/firewall/firewall_impl.go:430-450 | the old entry leaves its slice, the new rule is stored under the id and sorted into its type's slice, keeping the agreement |
| BasicFirewall.Firewall.GetRule | internal/security/firewall/firewall_impl.go:319-329 | an unknown id is not found; otherwise the stored rule |
| BasicFirewall.Firewall.ListRules | internal/security/firewall/firewall_impl.go:332-342 | one rule per id, each a stored rule and every stored rule present: exactly the rules stored under the ids in the order the map is ranged, each id once |
| BasicFirewall.Firewall.SetEnabled | internal/security/firewall/firewall_impl.go:373-404 | an unknown id is refused and changes nothing; otherwise the stored rule gets the flag and the update time, nothing else changes, and the agreement is kept |
| BasicFirewall.Firewall.EnableRule | internal/security/firewall/firewall_impl.go:373-387 | an unknown id is refused; otherwise the rule is enabled and stamped |
| BasicFirewall.Firewall.DisableRule | internal/security/firewall/firewall_impl.go:390-404 | an unknown id is refused; otherwise the rule is disabled and stamped |
| BasicFirewall.Firewall.Evaluate | internal/security/firewall/firewall_impl.go:189-231 | the first verdict among IP, geo, URL, header, content and rate rules in that order, and allow with `No matching rules found` when none has one |
| BasicFirewall.Firewall.EvaluateRulesByType | internal/security/firewall/firewall_impl.go:234-316 | the first enabled rule of the slice that matches, in index order, and the number of limiter calls made, one per enabled rate rule reached |
| BasicFirewall.ListsCountry | internal/security/firewall/firewall_impl.go:294-301 | true exactly when the country is listed, compared case-sensitively |
| BasicFirewall.ImplRateKey | internal/security/firewall/firewall_impl.go:282-287 | the user when set, else the session when set, else the address |
| BasicFirewall.Matches | internal/security/firewall/firewall_impl.go:248-302 | an IP rule matches an address its network holds; URL and content patterns match as prefixes of the URL and of a non-empty user agent; a header rule needs the header and, when it has a value, that value; a geo rule the country listed; any other type never matches |
| BasicFirewall.Matched | internal/security/firewall/firewall_impl.go:304-311 | the result names the rule, takes its action and description, and waits only for a rate rule whose action is to rate limit, for its period |
| BasicFirewallProps.ScanFromRule | internal/security/firewall/firewall_impl.go:240-315 | a slice verdict names an enabled rule of the slice that matches, and the limiter call count never goes down |
| BasicFirewallProps.MatchedRuleIsEnabled | internal/security/firewall/firewall_impl.go:189-231 | the verdict is the default allow or the result of an enabled rule some slice holds |
| BasicFirewallProps.ThrottleOnlyForRate | internal/security/firewall/firewall_impl.go:310 | only a rate rule whose action is to rate limit makes the caller wait, and for that rule's period |
| BasicFirewallProps.NoRateNoCalls | internal/security/firewall/firewall_impl.go:280-291 | a slice without rate rules never calls the limiter |
| BasicFirewallProps.RateScanStartsAtZero | internal/security/firewall/firewall_impl.go:200-228 | in a valid store, the rate rules are asked from the first limiter call on |
| BasicFirewallProps.MatchedIsCurrent | internal/security/firewall/firewall_impl.go:189-231 | while the maps agree, every rule a verdict names is the one stored under its id now |
| BasicFirewallProps.RemovedRuleNeverMatches | internal/security/firewall/firewall_impl.go:345-370 | while the maps agree, a removed rule is never matched again |
| BasicFirewallFindings.PriorityUpdateLeavesStaleEntry | internal/security/firewall/firewall_impl.go:443-446 | a priority-only update breaks the agreement, and a later removal of the id leaves an entry with that id in the slice evaluation scans |
| BasicFirewallFindings.SameKeyUpdateKeepsOldRule | internal/security/firewall/firewall_impl.go:447-450 | an update keeping type and priority leaves the old rule in the slice and the new one out of it, breaking the agreement |
| SecurityScan.NewScanner | archive/internal/bridge/pyhelper/security_scan.py:35-51 | a new scanner loads no malware signatures and has the four secret patterns api_key, password, private_key and token, in that order, with their expressions (the private-key one is the literal PEM header) |
| SecurityScan.LineNumberInRange | archive/internal/bridge/pyhelper/security_scan.py:144-213 | a reported line number is one more than the newlines before the match, and names one of the file's lines |
| SecurityScan.ScanStepStructure | archive/internal/bridge/pyhelper/security_scan.py:86-99 | the permission checks of one walk step, over its directories then its files |
| SecurityScan.ScanProjectStructure | archive/internal/bridge/pyhelper/security_scan.py:81-101 | the permission findings of the whole walk, step by step |
| SecurityScan.StructureIssuesAreMedium | archive/internal/bridge/pyhelper/security_scan.py:88-97 | every structure finding is a medium excessive-permissions issue about a path that can be stat-ed and whose nine permission bits are all set |
| SecurityScan.DependencyScanEmpty | archive/internal/bridge/pyhelper/security_scan.py:103-121 | the dependency scan never reports anything |
| SecurityScan.ScanPattern | archive/internal/bridge/pyhelper/security_scan.py:137-215 | one issue per match of one pattern, in match order |
| SecurityScan.ScanFileContent | archive/internal/bridge/pyhelper/security_scan.py:136-215 | one decoded file's issues, pattern by pattern in the dict's order |
| SecurityScan.ScanStepMatches | archive/internal/bridge/pyhelper/security_scan.py:127-217 | one walk step of a regular-expression detector: files it skips or cannot decode add nothing |
| SecurityScan.ScanMatches | archive/internal/bridge/pyhelper/security_scan.py:123-219 | the secrets and vulnerability scans over the whole walk |
| SecurityScan.MatchIssuesAreHigh | archive/internal/bridge/pyhelper/security_scan.py:139-215 | every regular-expression finding is high, of type `sensitive_information` or `potential_` plus a vulnerability pattern's name, on a line of at least 1 |
| SecurityScan.UnreadFilesYieldNothing | archive/internal/bridge/pyhelper/security_scan.py:128-217 | a file the detector skips, such as a dotfile or an image for the secrets scan, or one that does not decode, adds nothing |
| SecurityScan.ScanStepMalware | archive/internal/bridge/pyhelper/security_scan.py:156-180 | the malware checks of one walk step |
| SecurityScan.ScanFileMalware | archive/internal/bridge/pyhelper/security_scan.py:157-180 | one file: nothing when libmagic fails or calls it text, image or empty, or the read fails; otherwise a critical issue exactly when its digest is a known signature |
| SecurityScan.ScanMalware | archive/internal/bridge/pyhelper/security_scan.py:152-182 | the malware findings of the whole walk |
| SecurityScan.MalwareNeedsSignature | archive/internal/bridge/pyhelper/security_scan.py:163-178 | every malware finding is critical and about a file of an unsafe type whose digest is a known signature |
| SecurityScan.NoSignaturesNoMalware | archive/internal/bridge/pyhelper/security_scan.py:49-171 | with an empty signature list, as the scanner is built, nothing is ever reported |
| SecurityScan.CountType | archive/internal/bridge/pyhelper/security_scan.py:227 | a type's count is positive exactly when some issue has that type |
| SecurityScan.SeverityMap | archive/internal/bridge/pyhelper/security_scan.py:222-226 | the severity dict always holds exactly the four keys, each with its count |
| SecurityScan.TypeMap | archive/internal/bridge/pyhelper/security_scan.py:223-227 | the type dict holds exactly the types that occur, each with its count |
| SecurityScan.InitialCounts | archive/internal/bridge/pyhelper/security_scan.py:222 | before any issue the four severities count 0 |
| SecurityScan.CountIssue | archive/internal/bridge/pyhelper/security_scan.py:225-227 | one pass: a key error for a severity outside the four, otherwise both dicts become those of the longer prefix |
| SecurityScan.CountIssues | archive/internal/bridge/pyhelper/security_scan.py:222-227 | a key error exactly when some severity is unknown; otherwise both dicts of the whole list |
| SecurityScan.CountRecommendations | archive/internal/bridge/pyhelper/security_scan.py:233 | the number of issues with a non-empty recommendation |
| SecurityScan.GenerateSummary | archive/internal/bridge/pyhelper/security_scan.py:221-234 | a key error exactly when some severity is unknown; otherwise the total is the length, the severity dict has the four keys with their counts, the type dict the types that occur with theirs, and the recommendations are counted |
| SecurityScan.TypeCountsSumToTotal | archive/internal/bridge/pyhelper/security_scan.py:225-230 | the type counts add up to the total |
| SecurityScan.SeverityCountsSumToTotal | archive/internal/bridge/pyhelper/security_scan.py:222-230 | when no key error is raised the four severity counts add up to the total |
| SecurityScan.CountSevere | archive/internal/bridge/pyhelper/security_scan.py:78 | no severe issue exactly when the count is 0 |
| SecurityScan.IsSecure | archive/internal/bridge/pyhelper/security_scan.py:78 | secure exactly when no issue is high or critical |
| SecurityScan.DetectorSeverities | archive/internal/bridge/pyhelper/security_scan.py:94-211 | structure findings are medium, secrets and vulnerability findings high, malware findings critical, and the dependency scan has none |
| SecurityScan.IssueSeverity | archive/internal/bridge/pyhelper/security_scan.py:57-69 | every reported issue has a known severity, and it is severe exactly when it comes from the secrets, malware or vulnerability scans |
| SecurityScan.ScanSeveritiesKnown | archive/internal/bridge/pyhelper/security_scan.py:57-226 | the summary never raises on the scanner's own findings |
| SecurityScan.SecureIffNoSevereFindings | archive/internal/bridge/pyhelper/security_scan.py:57-78 | the project is secure exactly when neither regular-expression scan nor the malware scan found anything |
| SecurityScan.ScanProject | archive/internal/bridge/pyhelper/security_scan.py:53-79 | the findings in the order structure, dependencies, secrets, malware, vulnerabilities; the summary succeeds and is the summary of exactly those findings: the total, a count for each of the four severities, a count for each issue type that occurs and no other, and the number of findings with a recommendation; the verdict is secure exactly when none is severe |
| SecurityScan.SecurityHeadersDistinct | archive/internal/bridge/pyhelper/security_scan.py:256-264 | the seven security headers are distinct |
| SecurityScan.CheckSecurityHeaders | archive/internal/bridge/pyhelper/security_scan.py:251-271 | a failed fetch gives its error; otherwise exactly the seven headers, each true exactly when the response carries it |
| SecurityScan.CommandLine | archive/internal/bridge/pyhelper/security_scan.py:273-294 | fewer than three arguments is an argument error; exit status 1 exactly then or for an unknown command; a known command runs on the second argument |
| SecurityScanner.DefaultScannerConfig | QUANT_WW_GO/internal/security/scanner.go:30-48 | concurrency 10, a 30-second timeout, 2 retries 5 seconds apart, the five scan types in order, depth 3, the common checks included |
| SecurityScanner.DefaultModules | QUANT_WW_GO/internal/security/scanner.go:539-578 | the port, header, TLS and dependency modules, and the common-vulnerability one exactly when configured, each under its own non-empty name |
| SecurityScanner.NormalizeTarget | QUANT_WW_GO/internal/security/scanner.go:303-329 | an IP address is kept; an http(s) URL is parsed and printed again, or is an `invalid URL` error; a name with a dot and no slash gets `https://`; anything else is kept; only a URL can fail |
| SecurityScanner.DetermineScanTypes | QUANT_WW_GO/internal/security/scanner.go:332-351 | the enabled types when none are requested, else the requested ones that are enabled, in the order requested |
| SecurityScanner.ScanTypesChosen | QUANT_WW_GO/internal/security/scanner.go:332-351 | a type is chosen exactly when it is enabled and, if any were requested, requested |
| SecurityScanner.SeverityKeyAsWritten | QUANT_WW_GO/internal/security/scanner.go:450 | converting the level to a string gives the one character with that code |
| SecurityScanner.SeverityKeysAreCharacters | QUANT_WW_GO/internal/security/scanner.go:450-451 | a high or critical finding is counted under the control character 2 or 3 rather than under its name, and the four names differ |
| SecurityScanner.NoCountUnderName | QUANT_WW_GO/internal/security/scanner.go:448-451 | as written, no count is ever stored under a severity's name |
| SecurityScanner.Category | QUANT_WW_GO/internal/security/scanner.go:454-458 | the category is the text of the type before its first dot |
| SecurityScanner.RecommendationsBound | QUANT_WW_GO/internal/security/scanner.go:498-533 | at most five recommendations, none twice, so the cut to five drops nothing; the TLS advice comes exactly with a weak-cipher or outdated finding, the validation advice exactly with an XSS or injection one |
| SecurityScanner.CountTypes | QUANT_WW_GO/internal/security/scanner.go:492-495 | a type's count is positive exactly when some finding has it |
| SecurityScanner.GenerateRecommendations | QUANT_WW_GO/internal/security/scanner.go:486-536 | nothing without findings; otherwise the fixed-order recommendations for the types found |
| SecurityScanner.GenerateSummary | QUANT_WW_GO/internal/security/scanner.go:439-483 | the total is the number of findings; the counts are the multiplicities of severity names and categories; the highest score bounds every score and is one of them or 0; the top list is the first five critical or high titles; the recommendations as above |
| SecurityScanner.SummaryCounts | QUANT_WW_GO/internal/security/scanner.go:448-474 | the loop's counts, highest score and top list are those of all the findings |
| SecurityScanner.Account | QUANT_WW_GO/internal/security/scanner.go:449-473 | one finding bumps its severity and category, may raise the highest score, and adds a critical or high title while there are fewer than five |
| SecurityScanner.SummaryMeaning | QUANT_WW_GO/internal/security/scanner.go:449-473 | a severity key is counted exactly when some finding has that severity, and the top list holds critical or high titles only |
| SecurityScanner.RunScanModules | QUANT_WW_GO/internal/security/scanner.go:354-436 | the modules run in the order of the types, unknown types skipped; the findings of modules that succeeded, and one `module ... failed` message for each that failed |
| SecurityScanner.Scanner.constructor | QUANT_WW_GO/internal/security/scanner.go:114-144 | a non-positive concurrency becomes 5 and a non-positive timeout 30 seconds; the default modules are registered and the scanner is not running |
| SecurityScanner.Scanner.RegisterModule | QUANT_WW_GO/internal/security/scanner.go:152-167 | a missing or unnamed module is refused, changing nothing; otherwise it replaces any module of the same name |
| SecurityScanner.Scanner.ListModules | QUANT_WW_GO/internal/security/scanner.go:290-300 | every module's description under its name, and nothing else |
| SecurityScanner.Scanner.Stop | QUANT_WW_GO/internal/security/scanner.go:283-287 | the scanner is no longer running, and nothing else changes |
| SecurityScanner.Scanner.Scan | QUANT_WW_GO/internal/security/scanner.go:170-222 | an empty target, an invalid one or no type to run is an error; otherwise the result has the scan id and times given, the normalised target, the types joined by commas, every finding of the modules that ran, status `failed` exactly when one failed, with the error `some scans failed: ` and the failures joined by `; `, and `success` with no error otherwise; its summary is the one GenerateSummary promises for those findings: the total, the counts by severity name and by category, the highest score, the first five critical or high titles and the recommendations |
| ConfigStore.Lookup | archive/internal/config/config.go:61-71 | the value under a present key, and otherwise the error `configuration key not found:` with the key |
| ConfigStore.Assign | archive/internal/config/config.go:74-90 | the key is added or kept, and every other setting is left as it was |
| ConfigStore.SetThenGet | archive/internal/config/config.go:61-90 | a value set is the value read back; other keys read as before; an existing setting keeps its description, type and flag; a new one records the type of its first value and nothing else |
| ConfigStore.ImportInto | archive/internal/config/config.go:172-186 | every imported key gets a setting of its value and type alone; keys not imported are left |
| ConfigStore.ImportForgetsMetadata | archive/internal/config/config.go:79-183 | unlike setting a value, importing it again makes a required setting no longer required |
| ConfigStore.Section | archive/internal/config/config.go:93-105 | exactly the settings whose key is in the section, unchanged |
| ConfigStore.SectionMeaning | archive/internal/config/config.go:99 | the empty section lists every setting; a listed key of a non-empty section starts with the section and a dot |
| ConfigStore.MissingIsNotMismatch | archive/internal/config/config.go:197-208 | no setting yields both an error and a warning: a nil value has no type to disagree |
| ConfigStore.ParseIntBase | archive/internal/config/config.go:225-231 | an accepted text is within 64 bits |
| ConfigStore.ParseInt | archive/internal/config/config.go:223-237 | a result within 64 bits; decimal wins when it parses; otherwise hexadecimal after `0x` or `0X`; otherwise the error `invalid integer value:` with the text |
| ConfigStore.DigitsRoundTrip | archive/internal/config/config.go:225-231 | the digits of a number, in bases 2 to 16, read back as that number |
| ConfigStore.DecimalRoundTrip | archive/internal/config/config.go:223-227 | every 64-bit number printed in decimal parses back to itself |
| ConfigStore.ParseHex | archive/internal/config/config.go:229-236 | a text that is no decimal number but starts with `0x` is read in hexadecimal after it, or is an error |
| ConfigStore.HexRoundTrip | archive/internal/config/config.go:229-233 | every non-negative 64-bit number printed in hexadecimal after `0x` parses back to itself |
| ConfigStore.NotDecimal | archive/internal/config/config.go:225 | a text with a non-decimal digit after its first character is no decimal number |
| ConfigStore.Config.constructor | archive/internal/config/config.go:38-42 | an empty store for the file |
| ConfigStore.Config.Get | archive/internal/config/config.go:61-71 | the lookup of the key in the current settings |
| ConfigStore.Config.Set | archive/internal/config/config.go:74-90 | never fails, and the settings become the assignment of the value to the key |
| ConfigStore.Config.List | archive/internal/config/config.go:93-105 | never fails, and gives exactly the section's settings |
| ConfigStore.Config.GetAll | archive/internal/config/config.go:108-119 | a copy of every setting |
| ConfigStore.Config.Load | archive/internal/config/config.go:122-144 | a read failure and a decode failure are reported with their own prefixes and change nothing; otherwise the decoded settings, JSON for a `.json` file and YAML otherwise, replace all the settings |
| ConfigStore.Config.Save | archive/internal/config/config.go:147-169 | an encoding failure and a write failure are reported with their own prefixes; otherwise no error |
| ConfigStore.Config.Import | archive/internal/config/config.go:172-186 | never fails, and the settings become the import of the map |
| ConfigStore.Config.Validate | archive/internal/config/config.go:189-220 | never fails; the issues are exactly one error per required unset setting and one warning per value whose type is not the recorded one, all errors before all warnings |
| ConfigStore.RequiredErrors | archive/internal/config/config.go:195-204 | exactly one error per required setting without a value |
| ConfigStore.TypeWarnings | archive/internal/config/config.go:206-217 | exactly one warning per value whose type is not the recorded one |
| ConfigStore.ValidationMeaning | archive/internal/config/config.go:196-203 | a key has an error exactly when it is required and unset, and there are no more errors than keys |
| LoadStats.DefaultConfig | tests/load/load_test.go:114-131 | the default run: 5 minutes, 100 connections, 30 s ramp-up, 10 s report interval, 10 requests/s, 5 s timeout, 500 concurrent requests, protocol "grpc", the one bridge-status endpoint, pool of 100, output file "load_test_results.json", metrics, detailed stats and resource monitoring on |
| LoadStats.Highest | tests/load/load_test.go:537-539 | the running maximum started at a floor: at least the floor, at least every value, and either the floor or one of the values |
| LoadStats.Lowest | tests/load/load_test.go:524-536 | the running minimum started at a ceiling (an hour for the latencies): at most the ceiling, at most every value, and either the ceiling or one of the values |
| LoadStats.GoDiv | tests/load/load_test.go:544 | Go's integer division truncates toward zero: for a non-negative dividend the quotient times the divisor is at most the dividend and within one divisor of it, and symmetrically for a negative one |
| LoadStats.PercentileIndex | tests/load/load_test.go:611-617 | the index read is within the data, and for a percentile in (0, 100] it is ceil(n·p/100) − 1: index·100 < n·p <= (index+1)·100 |
| LoadStats.Percentile | tests/load/load_test.go:606-620 | no data gives 0; otherwise the result is one of the data |
| LoadStats.PercentileRank | tests/load/load_test.go:605-620 | on sorted data the result is a p-th percentile: every value whose rank lies below p percent of the data is at most it, every value from that rank on is at least it |
| LoadStats.PercentileMonotone | tests/load/load_test.go:605-620 | on sorted data a higher percentile never reads a smaller value |
| LoadStats.Insert | tests/load/load_test.go:542 | inserting into a sorted sequence keeps it sorted and adds exactly the one element |
| LoadStats.Sort | tests/load/load_test.go:542 | an ascending permutation of the latencies, the sort the comment at this line announces |
| LoadStats.OutcomesSplit | tests/load/load_test.go:506-513 | every request is counted once, as a success (its latency) or as a failure (its error text) |
| LoadStats.LatencyMember | tests/load/load_test.go:526-532 | a value is among the collected latencies exactly when some successful request has that duration |
| LoadStats.IntervalCounts | tests/load/load_test.go:352-373 | an interval's successes and failures add up to its request count, which is the number of results |
| LoadStats.IntervalMax | tests/load/load_test.go:359-379 | an interval's maximum latency bounds every success and is either 0 or one of the successes' durations |
| LoadStats.ReportCounts | tests/load/load_test.go:492-513 | the report's successes and failures add up to the total, which is the number of results; the error distribution sums to the failures and maps each text to the number of failures with that text |
| LoadStats.Report | tests/load/load_test.go:492-593 | the report keeps the configuration and duration, counts every result, counts successes as the latencies recorded and failures as the errors recorded, and tallies the error texts |
| LoadStats.CorrectedPercentilesOrdered | tests/load/load_test.go:542-553 | with the latencies sorted first, minimum <= median <= p95 <= p99 <= maximum, and all three percentiles are successes' latencies |
| LoadStats.LatencyOrderFinding | tests/load/load_test.go:542-553 | for two successes of 3 ns then 1 ns the report as written has median 3 and p99 1; sorted first, median 1 and p99 3 |
| LoadStats.LoadTestRunner.constructor | tests/load/load_test.go:150-178 | a runner holds the given configuration and starts with no results, no interval data and no memory readings |
| LoadStats.LoadTestRunner.Collect | tests/load/load_test.go:244-251 | the collector appends each result read from the channel and changes nothing else |
| LoadStats.LoadTestRunner.RecordMemory | tests/load/load_test.go:302-308 | a memory reading is appended to the usage history and nothing else changes |
| LoadStats.LoadTestRunner.ProcessIntervalData | tests/load/load_test.go:352-409 | the interval statistics: request count, successes, failures, truncated mean and maximum of the successes' latencies, and the latest memory reading when monitoring |
| LoadStats.LoadTestRunner.ReportInterval | tests/load/load_test.go:327-347 | on a tick an interval with results is appended to the interval data and an empty one is not; nothing else changes |
| LoadStats.LoadTestRunner.GenerateResults | tests/load/load_test.go:492-593 | the report as written, with percentiles read from the latencies in arrival order |
| LoadStats.LoadTestRunner.GenerateResultsCorrected | tests/load/load_test.go:492-593 | the report with the latencies sorted before the percentiles are read |
| LoadStats.LoadTestRunner.Generate | tests/load/load_test.go:492-593 | the report from the collected results, interval data, elapsed time and memory readings, the percentile order being the parameter |
| LoadStats.CountOutcomes | tests/load/load_test.go:506-513 | the first loop counts the successes and failures and tallies each failure's error text |
| LoadStats.LatencyStats | tests/load/load_test.go:522-540 | the second loop collects the successes' latencies in order, their sum, their minimum from an hour down and their maximum from 0 up |
| LoadStats.WrappedSumMeaning | tests/load/load_test.go:577-581 | the uint64 running sum of memory readings is their true sum modulo 2^64 |
| LoadStats.LatencyFigures | tests/load/load_test.go:543-554 | the truncated mean and the 50th, 95th and 99th percentiles of the latencies |
| LoadStats.MemoryFigures | tests/load/load_test.go:557-590 | the average and maximum memory readings when monitoring with readings, 0 otherwise |
| LoadStats.MemoryStats | tests/load/load_test.go:576-589 | the average is the wrapped uint64 sum divided by the number of readings, the maximum the largest reading |
| FeatureMap.Put | print_ProjectTree_FM.py:159-164 | assigning a dict key: the key is then present; an existing key keeps its place and takes the new value, a new key is appended at the end, and every other entry is unchanged |
| FeatureMap.GetAbsent | print_ProjectTree_FM.py:159-164 | a missing key reads as the default, as `defaultdict` gives an empty entry |
| FeatureMap.GetAt | print_ProjectTree_FM.py:164 | with unique keys, reading an entry's key gives that entry's value |
| FeatureMap.PutUnique | print_ProjectTree_FM.py:164 | assigning a key keeps the dict's keys unique |
| FeatureMap.PutGet | print_ProjectTree_FM.py:159-164 | with unique keys, the assigned key reads back the new value and every other key its old one |
| FeatureMap.Complexity | print_ProjectTree_FM.py:190-198 | the complexity is one plus the if/while/for/try and function nodes the walk visits, capped at 5, and never below 1 |
| FeatureMap.FunctionComplexity | print_ProjectTree_FM.py:190-198 | a function definition counts itself, so its complexity is at least 2 |
| FeatureMap.TokenImpactLines | print_ProjectTree_FM.py:212-221 | the impact is 10 per source line plus 8 per line of a non-empty docstring, lines counted as newlines plus one, so at least 10 |
| FeatureMap.TokenImpact | print_ProjectTree_FM.py:212-221 | at least 10, and exactly 10 per source line when there is no docstring |
| FeatureMap.FeatureType | print_ProjectTree_FM.py:172-188 | a class is "core"; a function named with a "_", "util_" or "helper_" prefix is "utility"; anything else is "supporting" |
| FeatureMap.IsUtilityFunction | print_ProjectTree_FM.py:181-188 | only a named function is a utility, and every function whose name starts with `_` is one |
| FeatureMap.Dependencies | print_ProjectTree_FM.py:200-210 | every name an `import` brings in and the non-empty module of a `from ... import` are dependencies, a leaf that imports nothing has none, and the walk keeps every child's dependencies |
| FeatureMap.ValidateFeature | print_ProjectTree_FM.py:71-80 | missing required elements are reported exactly when some are absent, naming exactly those; otherwise the feature exceeds its allocation exactly when the category has a "max" and the impact (0 when absent) is above it; otherwise it is valid |
| FeatureMap.VerdictMessage | print_ProjectTree_FM.py:71-80 | `Valid feature` exactly for a valid feature, `Exceeds token allocation` exactly for one over its allocation, and for missing elements `Missing required elements: ` followed by their list |
| FeatureMap.DefaultCategories | print_ProjectTree_FM.py:93-118 | the three default categories "core", "supporting" and "utility", with maxima 3000, 2000 and 1000 and required elements {description, dependencies}, {description} and none |
| FeatureMap.DefaultValidity | print_ProjectTree_FM.py:71-80 | with the default categories nothing required is ever missing from a feature's data, so a feature is valid exactly when its impact is within its category's maximum |
| FeatureMap.SummaryTotals | print_ProjectTree_FM.py:223-264 | the summary counts every feature once and the valid ones among them, adds up the impacts, keeps the validation messages, and its per-category impacts sum to the total, over exactly the categories that occur |
| FeatureMap.CategoryLists | print_ProjectTree_FM.py:239-251 | each category's list holds, in order, the entries of exactly the features of that type |
| FeatureMap.SummarizeAppend | print_ProjectTree_FM.py:239-262 | summarising two runs of features one after the other is summarising the first and continuing with the second |
| FeatureMap.FeatureAnalyzer.constructor | print_ProjectTree_FM.py:127-130 | the analyzer takes the configured categories and starts with no features and no validation results |
| FeatureMap.FeatureAnalyzer.FeatureOf | print_ProjectTree_FM.py:144-163 | the feature data: the node's name, the docstring's first line, the module path, the feature type, complexity, dependencies and token impact, and whether its category validates it |
| FeatureMap.FeatureAnalyzer.AnalyzeNode | print_ProjectTree_FM.py:132-170 | a node without a docstring, or whose type has no category (the KeyError the handler swallows), gives nothing and changes nothing; otherwise the feature is stored under its module and name and an invalid one appends a message to its module's list |
| FeatureMap.FeatureAnalyzer.GetFeatureSummary | print_ProjectTree_FM.py:223-264 | the summary of all stored features, module by module in insertion order |
| FeatureMap.SummarizeModule | print_ProjectTree_FM.py:240-262 | the inner loop accounts for one module's features in insertion order |
| PrometheusMetrics.KindOf | internal/core/metrics/prometheus.go:53-63 | exactly the four metric types counter, gauge, histogram and summary are dispatched, each to its own kind; every other type has none |
| PrometheusMetrics.MapRunes | internal/core/metrics/prometheus.go:70-75 | the rune map keeps the length, leaves every ASCII letter and digit in place and turns every other character into '_' |
| PrometheusMetrics.Normalize | internal/core/metrics/prometheus.go:68-83 | a normalised name is made of letters, digits and '_' only and never starts with a digit; a name starting with a digit gets the prefix "m_", any other keeps its length; every letter and digit of the name stays in its place |
| PrometheusMetrics.NormalizeIdempotent | internal/core/metrics/prometheus.go:68-83 | normalising a normalised name changes nothing |
| PrometheusMetrics.NormalizedLabelsKeys | internal/core/metrics/prometheus.go:86-98 | the normalised labels have exactly the normal forms of the keys, and each value is the value of some key with that normal form |
| PrometheusMetrics.NormalizedLabels | internal/core/metrics/prometheus.go:86-98 | every normalised key is made of name characters, every value is one of the given values, and there are no more keys than labels |
| PrometheusMetrics.NormalizedLabelsKeepValues | internal/core/metrics/prometheus.go:86-98 | when no two keys normalise alike, every label's value stays under its key's normal form |
| PrometheusMetrics.NormalizedLast | internal/core/metrics/prometheus.go:92-95 | when two keys normalise alike, the one ranged over last wins |
| PrometheusMetrics.NormalizeLabels | internal/core/metrics/prometheus.go:86-98 | nil labels stay nil; otherwise the loop gives the normalised labels for the order Go ranges over them |
| PrometheusMetrics.LabelNames | internal/core/metrics/prometheus.go:106-112 | one normalised name per label, in the order ranged over |
| PrometheusMetrics.GetLabelsFromMetric | internal/core/metrics/prometheus.go:101-113 | nil or empty labels give no names; otherwise the normal forms of the keys in ranging order, so a name is listed exactly when some key normalises to it |
| PrometheusMetrics.Buckets | internal/core/metrics/prometheus.go:208-214 | a new histogram uses the metadata's buckets when they are present and non-empty, and the bridge's default buckets otherwise |
| PrometheusMetrics.Objectives | internal/core/metrics/prometheus.go:258-266 | a new summary uses the metadata's objectives when present and non-empty, and {0.5: 0.05, 0.9: 0.01, 0.99: 0.001} otherwise |
| PrometheusMetrics.NewVec | internal/core/metrics/prometheus.go:205-228 | a new vector carries the bridge's namespace and subsystem, the normalised name, the help text "<Kind> metric: <name>" and the label names; only a histogram has buckets and only a summary objectives |
| PrometheusMetrics.Lookups | internal/core/metrics/prometheus.go:140-143 | one looked-up value per name, in order, the empty string for a missing one |
| PrometheusMetrics.LookupValues | internal/core/metrics/prometheus.go:140-143 | the loop collects exactly the looked-up values, in order |
| PrometheusMetrics.CollectValues | internal/core/metrics/prometheus.go:139-143 | the record methods' values: the normalised labels looked up under the names of a fresh loop over the labels |
| PrometheusMetrics.SwappedLabelValues | internal/core/metrics/prometheus.go:125-143 | two labels a and b ranged over as a, b when the vector is created and as b, a when the values are collected have b's value written under a's name |
| PrometheusMetrics.LabelValuesAsWritten | internal/core/metrics/prometheus.go:139-143 | one value per label name of the vector, each looked up under the normal form of that name in the freshly normalised labels |
| PrometheusMetrics.CorrectedPairsLabels | internal/core/metrics/prometheus.go:139-143 | with keys that do not clash, values looked up under the vector's own label names put each label's value under its own name |
| PrometheusMetrics.PrometheusBridge.constructor | internal/core/metrics/prometheus.go:29-41 | a new bridge has the given namespace and subsystem, no vectors or collectors, Prometheus' default buckets and no writes |
| PrometheusMetrics.PrometheusBridge.SetDefaultBuckets | internal/core/metrics/prometheus.go:44-49 | the default buckets are replaced and nothing else changes |
| PrometheusMetrics.PrometheusBridge.EnsureVec | internal/core/metrics/prometheus.go:120-137 | afterwards a vector of the kind exists under the metric's key; it was created with the label names of the creation loop only if it was missing, and then also stored in the collectors; nothing else changes |
| PrometheusMetrics.PrometheusBridge.Store | internal/core/metrics/prometheus.go:135-136 | the new vector is stored under its key among its kind's vectors and the collectors, and nothing else changes |
| PrometheusMetrics.PrometheusBridge.Record | internal/core/metrics/prometheus.go:116-154 | the vector is created on first use and one write of the metric's value is appended, with the label values in the order of the value loop |
| PrometheusMetrics.PrometheusBridge.RecordCorrected | internal/core/metrics/prometheus.go:116-154 | as Record, but the label values follow the vector's own label names |
| PrometheusMetrics.PrometheusBridge.RecordMetric | internal/core/metrics/prometheus.go:52-65 | an unsupported type fails with "unsupported metric type: <type>" and changes nothing; the four known types are recorded on the vectors of their kind |
| PrometheusMetrics.PrometheusBridge.GetCollectors | internal/core/metrics/prometheus.go:299-310 | the result is a copy of the collectors |
| Adapters.AddInt64 | internal/bridge/adapters/interface.go:243-273 | Go's int64 increment: the true sum when it fits, otherwise wrapped around by 2^64 |
| Adapters.Create | internal/bridge/adapters/interface.go:124-130 | an unregistered adapter type gives "unknown adapter type"; a registered one is built by its factory from the configuration |
| Adapters.RegisterThenCreate | internal/bridge/adapters/interface.go:109-130 | after registering a factory, creating an adapter of that type uses the new factory and creating any other type is unaffected |
| Adapters.AdapterRegistry.constructor | internal/bridge/adapters/interface.go:102-106 | a new registry has no factories |
| Adapters.AdapterRegistry.RegisterFactory | internal/bridge/adapters/interface.go:109-113 | the type now maps to the given factory, whatever it mapped to before, and nothing else changes |
| Adapters.AdapterRegistry.GetFactory | internal/bridge/adapters/interface.go:116-121 | a factory is found exactly when the type is registered, and it is that type's factory |
| Adapters.AdapterRegistry.CreateAdapter | internal/bridge/adapters/interface.go:124-130 | creating an adapter is Create on the registry's factories |
| Adapters.AdapterRegistry.ListAdapterTypes | internal/bridge/adapters/interface.go:133-141 | every registered type is listed exactly once and nothing else is |
| Adapters.RedactedOptions | internal/bridge/adapters/interface.go:186-204 | the options keep their keys; without a "password" option they are unchanged, with one every password, secret, api_key and token option reads as "******" and the others are unchanged |
| Adapters.RedactionHides | internal/bridge/adapters/interface.go:186-204 | redacting twice is redacting once, and with a password present the password reads as stars |
| Adapters.BaseAdapter.Config | internal/bridge/adapters/interface.go:186-204 | the configuration handed out is the adapter's own with its options redacted |
| Adapters.NextAverage | internal/bridge/adapters/interface.go:288-291 | the running average after one more duration lies between the old average and the new duration |
| Adapters.AverageBetween | internal/bridge/adapters/interface.go:289-291 | the incremental mean (average·(count−1) + duration)/count, truncated to a Duration, lies between the old average and the new duration |
| Adapters.WithResponseTime | internal/bridge/adapters/interface.go:277-301 | only the three response-time figures change; the first message sets all three to the duration; otherwise min and max widen to the duration, and from the second message on the average is the incremental mean; min <= average <= max is kept |
| Adapters.BaseAdapter.constructor | internal/bridge/adapters/interface.go:157-168 | a new base adapter holds its name, type, configuration and metadata and starts uninitialised, with zero statistics, no error and no connection time |
| Adapters.BaseAdapter.Stats | internal/bridge/adapters/interface.go:214-225 | the statistics as kept, except that when connected with a connection time the uptime is the time since that connection |
| Adapters.BaseAdapter.SetStatus | internal/bridge/adapters/interface.go:235-248 | the status is set; entering connected stamps the connection time and counts a connection, entering disconnected stamps and counts a disconnection, any other status changes nothing else |
| Adapters.BaseAdapter.SetError | internal/bridge/adapters/interface.go:251-258 | the error is kept as the last error, and a non-nil one adds one to the error count |
| Adapters.BaseAdapter.RecordSend | internal/bridge/adapters/interface.go:261-266 | one more message sent and the bytes added to the bytes sent, in wrapping int64 arithmetic; nothing else changes |
| Adapters.BaseAdapter.RecordReceive | internal/bridge/adapters/interface.go:269-274 | one more message received and the bytes added to the bytes received, in wrapping int64 arithmetic; nothing else changes |
| Adapters.BaseAdapter.UpdateResponseTime | internal/bridge/adapters/interface.go:277-301 | the statistics become WithResponseTime of the old ones and the duration; nothing else changes |
| Adapters.Saturate | internal/bridge/adapters/interface.go:221 | time.Since as a Duration: the difference itself when it fits int64, MaxInt64 above that range and MinInt64 below it, as Time.Sub saturates |
| Adapters.SendCounts | internal/bridge/adapters/interface.go:261-266 | below the counters' limits a send counts exactly one message and exactly its bytes |

## Left out

- Locks, goroutines, channels and contexts everywhere: the model is sequential and each method runs atomically.
- Logging throughout: log output is dropped. Where warnings are the point (EnvSecurity), they are returned as a list.
- SecurityScan: `os.walk`, `os.stat`, file reads, libmagic and SHA-256 are an observed entry sequence and abstract functions. Regular expressions are an abstract matcher returning match starts.
- SecurityScan: the TLS probe `check_ssl` and the HTTP fetch behind `check_security_headers` are network I/O. Only the header-set-to-table mapping is modelled.
- SecurityScan.CommandLine: printing the JSON report is output. The dispatch returns the report instead.
- RuleFirewall and BasicFirewall: the logger, the mutexes and the IP cache are left out.
- RuleFirewall and BasicFirewall: `net.ParseIP`, `ParseCIDR`, `Contains`, the regular-expression library and the rate limiter behind a rate rule are parameters (`NetLib`, `RegexLib`, `RateOracle`).
- BasicFirewall.Firewall.Evaluate: a nil request would make the Go code panic. The model always takes a request.
- RuleFirewall.FirewallImpl.AddRule: Go stores the caller's `*Rule` itself in both the id map and the type slice, so a caller that later mutates its rule changes the store. The model stores the rule as a value; this aliasing is not modelled. RuleFirewall's GetRule and ListRules hand out copies, as the model does.
- BasicFirewall.Firewall.GetRule and BasicFirewall.Firewall.ListRules: the Go methods hand out the stored pointers, so a caller that mutates a result aliases the store. The model returns values; this aliasing is not modelled.
- RateLimiting: times and durations are integers passed in by the caller. The memory limiter's background cleanup goroutine and its `Close` (`rate_limiter_impl.go:97`, `rate_limiter_impl.go:252`, `rate_limiter_impl.go:291`) are left out; Cleanup is the method the goroutine would call.
- SecurityEvents: `AnalyzeRisk` (floating point), the anomaly detector stubs and the `ScanResource`/`Detect` stubs are left out.
- ImportAudit.ContainsImport: `bufio.Scanner` stops at a line longer than 64 KiB, ending the scan early; the model reads every line whatever its length.
- SecurityEvents: event filters are typed records. The Go `map[string]interface{}` filters panic on a value of another dynamic type, and that panic is not modelled.
- PluginRegistry: the registry holds each plugin's state as a value and applies the base plugin's lifecycle to it. Plugins with their own lifecycle code are not modelled.
- Bridges and BridgeManager: what adapters and protocols do, the logger, the metrics and the health-check goroutines are parameters or left out. The `Status` and `LastError` getters are left out.
- BridgeMessages: the uuid of a new message, the clock and the JSON encoding are parameters.
- ErrorHandling: logging, metrics and writing the HTTP response are left out. HandleError returns the response it would write.
- Router: the mux, the handlers and the JSON writers are left out. `net.SplitHostPort` is a parameter.
- RiskAnalysis: `GetRiskTrend` is left out. The float64 trend ratio is a real number.
- ServiceDiscovery: JSON `Serialize`/`Deserialize` and the configuration are left out. The underlying registry's Register and Deregister are parameters.
- ProxyManager: the reverse proxying itself and TLS are left out. URL parsing, uuids and the clock are parameters.
- SecurityScanner: concurrency, `ScanAsync`, the floating-point score averages, retries and the HTTP client are left out. So are the bodies of the built-in scan modules, which are stubs; what a module finds is a parameter.
- ConfigStore: reading and writing the file, JSON or YAML encoding, and the `MkdirAll`/`Stat` calls made when a store is created are parameters or left out.
- LoadStats: the request goroutines, the HTTP/gRPC client, CPU figures (floating point), the success rate, requests per second and `saveResults` are left out.
- LoadStats.LoadTestRunner.GenerateResults: the test duration is `endTime - startTime`, but only `Run` (left out, it drives the request goroutines) ever sets those two fields; no modelled method writes them, so they keep the constructor's zero and the reported duration is 0.
- LoadStats: latency sums are unbounded integers; an int64 overflow of a duration sum is not modelled. The uint64 memory sum does wrap.
- ProtocolBuffers: the placeholder protocol methods that only return nil are left out. The generation time of a manifest is a parameter.
- StrUtil: case folding covers ASCII letters only (`strings.EqualFold`, `strings.ToLower` and Python `str.lower` on other letters are not modelled).
- FeatureMap: the Rich UI, the tree view, `ProjectAnalyzer` and export are left out.
- FeatureMap: the exception handler of `analyze_node` is modelled only for the missing-category case. Python's text for a set is a parameter, and category order is not displayed.
- Adapters: the `SharedAdapter` interface methods that concrete adapters implement, `CustomStats` and the getters are left out. The global-registry wrappers at `internal/bridge/adapters/interface.go:344-361` are left out.
- Adapters.WithResponseTime: Go's float64 rounding is replaced by exact real arithmetic before the truncation to a Duration. The average with a message count below one (a division by zero in Go) is left as it was.
- PrometheusMetrics: the Prometheus client library is left out; a vector is the options it was created with, and a write is recorded as an update. `RegisterWithPrometheus`, `UnregisterFromPrometheus` and the `BridgeRequestCounter`/`BridgeLatencyHistogram`/`BridgeConnectionGauge` wrappers are left out. Metric values are real numbers.
- DashboardFilters: metric values and thresholds are Go float64s, modelled as real numbers.
- RiskPatterns.MatchesCondition: the `contains` operation uses the corrected substring test ContainsSubstring. The as-written `containsSubstring`, inverted and panicking on a longer needle, is modelled separately as ContainsSubstringAsWritten and is not propagated into pattern matching, so RiskAnalysis's pattern boosts also follow the corrected test. Likewise MatchesCondition and Matches give the answer wherever Go's interface comparison does not panic; the panic on two values of one uncomparable type is modelled by MatchesConditionAsWritten and MatchesAsWritten, and RiskAnalysis's pattern boosts assume no condition panics.
- SecurityScanner.Scanner.Scan: the summary is the corrected GenerateSummary, keyed by the severity's name. Go keys it by `string(vuln.Severity)`, a one-character control string; that as-written summary is shown only by SeverityKeysAreCharacters.
- RiskAnalysis.RiskScore: Go's risk score is a 64-bit `int` and its sums and the severity multiplication can wrap; the model's scores are unbounded integers.
- RateLimiting.BurstLimit: `int(float64(limit) * BurstFactor)` rounds through float64; the model multiplies exactly by a rational factor before truncating toward zero, so it differs where the float64 product rounds across an integer.
- ServiceDiscovery.BridgeDiscovery.UpdateBridgeServiceStats: Go writes the new stats into the shared `*BridgeServiceInfo`, which every earlier caller of GetBridgeService also holds. The model replaces a value in the map; that aliasing is not modelled.
- BridgeManager.Manager.CreateBridge: Go writes the generated ID and the default timeout back into the caller's `*BridgeConfig`. The model returns the filled-in configuration inside the new bridge and leaves the caller's value unchanged.
- PrometheusMetrics.PrometheusBridge.Record and PrometheusMetrics.PrometheusBridge.RecordMetric: the Prometheus client panics on duplicate label names, on a label-count mismatch in `With`, and on a negative `Counter.Add`. The model records the update in all three cases.
- ErrorHandling.StandardErrorHandler.HandleError: a nil `err` makes `err.Error()` panic in Go; the model always takes an error value.
- Adapters.Saturate: `time.Since` reads the clock; the model takes the current time as a parameter.
- PrometheusMetrics.PrometheusBridge.EnsureVec: `promauto.New*Vec` (`internal/core/metrics/prometheus.go:126`, 167, 216, 268) registers the new vector with the default registry and panics when a vector with the same fully-qualified name `namespace_subsystem_name` is already registered. This happens for the same metric name from two sources (two keys, one name) and for a second kind with the same name and source. The model stores the second vector as if registration succeeded.
- PrometheusMetrics.PrometheusBridge.Record: the duplicate-registration panic of EnsureVec is not modelled either; the model records the update.
- PrometheusMetrics.PrometheusBridge.RecordCorrected: the same duplicate-registration panic, and the three client panics listed for Record, are not modelled; the model records the update.
- PrometheusMetrics.PrometheusBridge.RecordMetric: besides the three client panics listed above, the duplicate-registration panic of EnsureVec is not modelled.
- ConfigStore.Config.Load: `json.Unmarshal` of `null` and `yaml.Unmarshal` of an empty file succeed and leave the decoded map nil, and Go stores that nil map (`archive/internal/config/config.go:131-142`). The model's decoder always yields a map, so a store whose settings are nil is not modelled.
- ConfigStore.Config.Set: after a Load that stored a nil map, Go's write at `archive/internal/config/config.go:87` panics. The model has no nil store, so its Set always succeeds.
- ConfigStore.Config.Import: after a Load that stored a nil map, a non-empty Import panics at `archive/internal/config/config.go:182`. The model has no nil store, so its Import always succeeds.
- Plugins.BasePlugin.Initialize: Go keeps the caller's map itself (`internal/bridge/plugins/plugin.go:146`), so later Configure writes reach the caller's map, and `Initialize(ctx, nil)` stores a nil map. The model stores the configuration as a value and cannot hold a nil one.
- Plugins.BasePlugin.Configure: Go writes into the map Initialize stored, which is the caller's, and panics on a non-empty argument when that map is nil (`internal/bridge/plugins/plugin.go:237-239`). The model always merges into its own value.
- BasicFirewall.Firewall.AddRule: Go writes the generated ID, the timestamps and the defaults into the caller's `*Rule` and stores that pointer in both maps (`internal/security/firewall/firewall_impl.go:62-63`, 76-79, 82, 87, 90). The model stores a prepared value; the caller's rule is not changed, so the caller does not learn the generated ID, and later caller mutations do not alias the store.
- BasicFirewall.Firewall.UpdateRule: Go stamps and prepares the caller's `*Rule` in place and stores that pointer (`internal/security/firewall/firewall_impl.go:421-425`, 441, 445, 450). The model stores a prepared value; the caller's rule is unchanged and not aliased with the store.
- BasicFirewall.Firewall.UpdateRuleCorrected: the same in-place stamping of the caller's `*Rule` and pointer sharing as UpdateRule are not modelled.
- RuleFirewall.FirewallImpl.UpdateRule: Go stamps and prepares the caller's `*Rule` in place and stores that pointer (`internal/security/firewall/firewall.go:212-216`, 232, 239, 243, 248). The model stores a prepared value; the caller's rule is unchanged and not aliased with the store.
- RuleFirewall.FirewallImpl.UpdateRuleCorrected: the same in-place stamping of the caller's `*Rule` and pointer sharing as UpdateRule are not modelled.

## Findings

| source | as written | input that shows it | evidently intended | confidence | as-written member | corrected member |
|---|---|---|---|---|---|---|
| internal/security/firewall/firewall.go:237-240 | a priority-only update stores the new rule in the id map but re-sorts a slice that still holds the old rule | add rules "a" and "b", then raise "a"'s priority | the slice holds the new rule and is sorted by the new priority | not executed | RuleFirewallScenarios.PriorityUpdateUnsortsIndex | RuleFirewall.FirewallImpl.UpdateRuleCorrected |
| internal/security/firewall/firewall.go:221-236 | a type-changing update moves the rule between slices but never writes the id map, so the id still names the old rule | update a rule's type | the id names the new rule | not executed | RuleFirewallScenarios.TypeUpdateKeepsOldRule | RuleFirewall.FirewallImpl.UpdateRuleCorrected |
| internal/security/firewall/firewall_impl.go:443-446 | a priority-only update appends the new rule beside the old one, so a later RemoveRule leaves an entry with the removed id | update a rule's priority, then remove the rule | the old entry leaves the slice when the new one joins it | not executed | BasicFirewallFindings.PriorityUpdateLeavesStaleEntry | BasicFirewall.Firewall.UpdateRuleCorrected |
| internal/security/firewall/firewall_impl.go:447-450 | an update that keeps type and priority writes only the id map; the slice keeps the old rule, which is the one evaluation consults | update a rule's pattern keeping its type and priority | the slice holds the new rule | not executed | BasicFirewallFindings.SameKeyUpdateKeepsOldRule | BasicFirewall.Firewall.UpdateRuleCorrected |
| internal/bridge/plugins/registry.go:50-72 | unregistering a plugin leaves its own dependency list behind, so a plugin it depended on stays blocked from unregistering until someone calls RemoveDependency on the departed plugin's list | B depends on A; unregister B, then unregister A | A can be unregistered once B is gone | not executed | PluginRegistry.StaleDependencyBlocksUnregister | PluginRegistry.CorrectedUnregisterFreesDependency |
| QUANT_WW_GO/internal/security/risk/types.go:150-152 | `containsSubstring` is true exactly when the string does not start with the needle, and it panics on a longer needle | "abc" with "x" gives true, with "a" false | true exactly when the needle occurs in the string | not executed | RiskPatterns.ContainsSubstringInverted | RiskPatterns.ContainsSubstring |
| tests/project_audit_test.go:598-601 | a line that is a lone `"` inside an import block passes both quote tests and slices `[1:0]`, which panics | the text `import (`, `"`, `)` | the line is skipped | not executed | ImportAudit.LoneQuotePanics | ImportAudit.LineStepCorrected |
| QUANT_WW_GO/internal/security/scanner.go:450-451 | `string(vuln.Severity)` converts the integer level to a one-character string, so the counts are keyed by control characters | one finding of level high (2) is counted under "\x02" | the count is keyed by the severity's name | not executed | SecurityScanner.SeverityKeysAreCharacters | SecurityScanner.GenerateSummary |
| tests/load/load_test.go:542-553 | the percentiles are read from the latencies in arrival order, although the comment says they are sorted | two successes of 3 ns then 1 ns: median 3, p99 1 | the latencies are sorted first, so min <= median <= p95 <= p99 <= max | not executed | LoadStats.LatencyOrderFinding | LoadStats.CorrectedPercentilesOrdered |
| internal/core/metrics/prometheus.go:125-143 | label names and label values come from two separate ranges over the label map, whose orders may differ, so values can be attached to the wrong names | labels a and b, ranged over as a, b and then as b, a | each value is looked up under the vector's own label names | not executed | PrometheusMetrics.SwappedLabelValues | PrometheusMetrics.CorrectedPairsLabels |
