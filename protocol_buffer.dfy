// The service definitions of QUANT_WW_GO/internal/bridge/protocols/
// protocol_buffer.go: services with their methods, the default manifest of
// three services, lookups by name (ignoring ASCII case) and by type, and the
// .proto text generated for a service. The time a manifest is generated at
// is a parameter.
module ProtocolBuffers {
  import opened Wrappers
  import opened StrUtil
  import opened Seqs

  const APIVersionV1 := "v1"
  const APIVersionV2 := "v2"

  const ServiceTypeAnalyzer := "analyzer"
  const ServiceTypeRisk := "risk"
  const ServiceTypeStorage := "storage"
  const ServiceTypeMonitor := "monitor"
  const ServiceTypeAPI := "api"
  const ServiceTypeAuth := "auth"
  const ServiceTypeDiscovery := "discovery"

  const MethodTypeUnary := "unary"
  const MethodTypeServerStream := "server_stream"
  const MethodTypeClientStream := "client_stream"
  const MethodTypeBidiStream := "bidi_stream"

  /** A method parameter; its default value (of any type) is left out. */
  datatype ParameterDefinition = ParameterDefinition(name: string, paramType: string, description: string, required: bool)

  datatype MethodDefinition = MethodDefinition(
    name: string,
    description: string,
    inputType: string,
    outputType: string,
    methodType: string,
    options: map<string, string>,
    deprecated: bool,
    since: string,
    params: seq<ParameterDefinition>)

  datatype ServiceDefinition = ServiceDefinition(
    name: string,
    version: string,
    serviceType: string,
    description: string,
    methods: seq<MethodDefinition>)

  datatype ServiceManifest = ServiceManifest(services: seq<ServiceDefinition>, version: string, generated: int)

  /** A method of the default services: no options, not deprecated, no `since`. */
  function Plain(name: string, description: string, input: string, output: string, methodType: string,
                 params: seq<ParameterDefinition>): MethodDefinition
  {
    MethodDefinition(name, description, input, output, methodType, map[], false, "", params)
  }

  const TokenAnalyzerName := "TokenAnalyzer"
  const RiskAnalyzerName := "RiskAnalyzer"
  const DiscoveryName := "Discovery"

  const TokenAddress := ParameterDefinition("token_address", "string", "The token's contract address", true)
  const TokenAddresses := ParameterDefinition("token_addresses", "list<string>", "List of token contract addresses", true)
  const AnalysisOptions := ParameterDefinition("options", "map<string, any>", "Analysis options", false)
  const ServiceTypeParam := ParameterDefinition("service_type", "string", "Type of service", false)

  const TokenAnalysisService := ServiceDefinition(TokenAnalyzerName, APIVersionV1, ServiceTypeAnalyzer,
    "Service for analyzing token properties and behavior", [
      Plain("AnalyzeToken", "Analyzes a token by its contract address",
        "AnalyzeTokenRequest", "AnalyzeTokenResponse", MethodTypeUnary, [TokenAddress, AnalysisOptions]),
      Plain("BatchAnalyzeTokens", "Analyzes multiple tokens in a single request",
        "BatchAnalyzeTokensRequest", "BatchAnalyzeTokensResponse", MethodTypeUnary, [TokenAddresses, AnalysisOptions]),
      Plain("StreamTokenUpdates", "Streams real-time updates about a token",
        "TokenUpdateRequest", "TokenUpdateResponse", MethodTypeServerStream,
        [TokenAddress, ParameterDefinition("update_types", "list<string>", "Types of updates to receive", false)])])

  const RiskAnalysisService := ServiceDefinition(RiskAnalyzerName, APIVersionV1, ServiceTypeRisk,
    "Service for analyzing token risk profiles", [
      Plain("CalculateRisk", "Calculates risk metrics for a token",
        "CalculateRiskRequest", "CalculateRiskResponse", MethodTypeUnary,
        [TokenAddress, ParameterDefinition("risk_factors", "list<string>", "Risk factors to include", false)]),
      Plain("CompareRisks", "Compares risk profiles between multiple tokens",
        "CompareRisksRequest", "CompareRisksResponse", MethodTypeUnary,
        [TokenAddresses, ParameterDefinition("comparison_factors", "list<string>", "Factors to compare", false)])])

  const DiscoveryService := ServiceDefinition(DiscoveryName, APIVersionV1, ServiceTypeDiscovery,
    "Service for discovering and managing service instances", [
      Plain("RegisterService", "Registers a service instance",
        "RegisterServiceRequest", "RegisterServiceResponse", MethodTypeUnary,
        [ParameterDefinition("service_info", "ServiceInfo", "Service information", true)]),
      Plain("DeregisterService", "Deregisters a service instance",
        "DeregisterServiceRequest", "DeregisterServiceResponse", MethodTypeUnary,
        [ParameterDefinition("service_id", "string", "Service ID", true)]),
      Plain("DiscoverServices", "Discovers services by type and version",
        "DiscoverServicesRequest", "DiscoverServicesResponse", MethodTypeUnary,
        [ServiceTypeParam, ParameterDefinition("version", "string", "Service version", false)]),
      Plain("WatchServices", "Watches for service changes",
        "WatchServicesRequest", "WatchServicesResponse", MethodTypeServerStream, [ServiceTypeParam])])

  /** DefaultServiceManifest: the token analyzer, the risk analyzer and
    * discovery, in that order, at version v1. */
  function DefaultServiceManifest(now: int): (m: ServiceManifest)
    ensures |m.services| == 3 && m.version == APIVersionV1 && m.generated == now
    ensures m.services[0].name == TokenAnalyzerName && m.services[0].serviceType == ServiceTypeAnalyzer
    ensures m.services[1].name == RiskAnalyzerName && m.services[1].serviceType == ServiceTypeRisk
    ensures m.services[2].name == DiscoveryName && m.services[2].serviceType == ServiceTypeDiscovery
    ensures |m.services[0].methods| == 3 && |m.services[1].methods| == 2 && |m.services[2].methods| == 4
  {
    ServiceManifest([TokenAnalysisService, RiskAnalysisService, DiscoveryService], APIVersionV1, now)
  }

  // ---------------------------------------------------------------------
  // Lookups. A found entry is given by its index, as the source hands out a
  // reference into the slice.

  /** The name test of the lookups: equal, or equal ignoring case. */
  predicate NameMatches(candidate: string, name: string)
  {
    candidate == name || EqualFold(candidate, name)
  }

  /** GetMethodByName: the first method whose name matches. */
  method GetMethodByName(s: ServiceDefinition, name: string) returns (r: Option<nat>)
    ensures r.Some? ==> r.value < |s.methods| && NameMatches(s.methods[r.value].name, name)
    ensures r.Some? ==> forall j :: 0 <= j < r.value ==> !NameMatches(s.methods[j].name, name)
    ensures r.None? <==> forall j :: 0 <= j < |s.methods| ==> !NameMatches(s.methods[j].name, name)
  {
    var i := 0;
    while i < |s.methods|
      invariant 0 <= i <= |s.methods|
      invariant forall j :: 0 <= j < i ==> !NameMatches(s.methods[j].name, name)
    {
      var m := s.methods[i];
      if m.name == name || EqualFold(m.name, name) {
        return Some(i);
      }
      i := i + 1;
    }
    return None;
  }

  /** GetServiceByName: the first service whose name matches. */
  method GetServiceByName(m: ServiceManifest, name: string) returns (r: Option<nat>)
    ensures r.Some? ==> r.value < |m.services| && NameMatches(m.services[r.value].name, name)
    ensures r.Some? ==> forall j :: 0 <= j < r.value ==> !NameMatches(m.services[j].name, name)
    ensures r.None? <==> forall j :: 0 <= j < |m.services| ==> !NameMatches(m.services[j].name, name)
  {
    var i := 0;
    while i < |m.services|
      invariant 0 <= i <= |m.services|
      invariant forall j :: 0 <= j < i ==> !NameMatches(m.services[j].name, name)
    {
      var service := m.services[i];
      if service.name == name || EqualFold(service.name, name) {
        return Some(i);
      }
      i := i + 1;
    }
    return None;
  }

  /** GetServiceByType: the first service of exactly that type. */
  method GetServiceByType(m: ServiceManifest, serviceType: string) returns (r: Option<nat>)
    ensures r.Some? ==> r.value < |m.services| && m.services[r.value].serviceType == serviceType
    ensures r.Some? ==> forall j :: 0 <= j < r.value ==> m.services[j].serviceType != serviceType
    ensures r.None? <==> forall j :: 0 <= j < |m.services| ==> m.services[j].serviceType != serviceType
  {
    var i := 0;
    while i < |m.services|
      invariant 0 <= i <= |m.services|
      invariant forall j :: 0 <= j < i ==> m.services[j].serviceType != serviceType
    {
      if m.services[i].serviceType == serviceType {
        return Some(i);
      }
      i := i + 1;
    }
    return None;
  }

  /** A name differing from a service's only in ASCII case finds it, or an earlier one. */
  lemma FoldedNameMatches(candidate: string, name: string)
    requires Lower(candidate) == Lower(name)
    ensures NameMatches(candidate, name) && NameMatches(name, candidate)
  {
  }

  // ---------------------------------------------------------------------
  // GenerateProto.

  const SyntaxLine := "syntax = \"proto3\";\n\n"
  const GoPackageBase := "github.com/quant-webworks/go/internal/bridge/protocols/"
  const DeprecatedOption := "  option deprecated = true;\n"
  const StreamWord := "stream "
  const RpcStart := "  rpc "
  const ServiceEnd := "}\n\n"

  /** The word before the request type. */
  function RequestStream(methodType: string): (r: string)
    ensures r == StreamWord <==> methodType == MethodTypeClientStream || methodType == MethodTypeBidiStream
    ensures r != StreamWord ==> r == ""
  {
    if methodType == MethodTypeClientStream || methodType == MethodTypeBidiStream then StreamWord else ""
  }

  /** The word before the response type. */
  function ResponseStream(methodType: string): (r: string)
    ensures r == StreamWord <==> methodType == MethodTypeServerStream || methodType == MethodTypeBidiStream
    ensures r != StreamWord ==> r == ""
  {
    if methodType == MethodTypeServerStream || methodType == MethodTypeBidiStream then StreamWord else ""
  }

  /** The package: the service type in lower case. */
  function PackageName(s: ServiceDefinition): string
  {
    Lower(s.serviceType)
  }

  const PackageStart := "package "
  const StatementEnd := ";\n\n"
  const GoPackageStart := "option go_package = \""
  const GoPackageEnd := "\";\n\n"
  const CommentStart := "// "
  const MethodCommentStart := "  // "
  const LineEnd := "\n"
  const ServiceStart := "service "
  const ServiceOpen := " {\n"
  const ParenOpen := "("
  const Returns := ") returns ("
  const RpcEnd := ");\n\n"

  /** The syntax line and the package statement. */
  function PackageLines(s: ServiceDefinition): string
  {
    SyntaxLine + PackageStart + PackageName(s) + StatementEnd
  }

  /** The go_package option, the service's comment and the opening of the service. */
  function ServiceOpening(s: ServiceDefinition): string
  {
    GoPackageStart + GoPackageBase + PackageName(s) + GoPackageEnd
    + CommentStart + s.description + LineEnd
    + ServiceStart + s.name + ServiceOpen
  }

  function ProtoHeader(s: ServiceDefinition): string
  {
    PackageLines(s) + ServiceOpening(s)
  }

  function CommentLine(m: MethodDefinition): string
  {
    MethodCommentStart + m.description + LineEnd
  }

  function RpcLine(m: MethodDefinition): string
  {
    RpcStart + m.name + ParenOpen + RequestStream(m.methodType) + m.inputType + Returns
    + ResponseStream(m.methodType) + m.outputType + RpcEnd
  }

  /** The optional deprecation line. */
  function Deprecation(m: MethodDefinition): string
  {
    if m.deprecated then DeprecatedOption else ""
  }

  function MethodBlock(m: MethodDefinition): string
  {
    CommentLine(m) + Deprecation(m) + RpcLine(m)
  }

  /** The text GenerateProto writes. */
  function Proto(s: ServiceDefinition): string
  {
    ProtoHeader(s) + FlatMap(s.methods, MethodBlock) + ServiceEnd
  }

  /** GenerateProto. */
  method GenerateProto(s: ServiceDefinition) returns (text: string)
    ensures text == Proto(s)
  {
    var header := ProtoHeader(s);
    var sb := header;
    var i := 0;
    while i < |s.methods|
      invariant 0 <= i <= |s.methods|
      invariant sb == header + FlatMap(s.methods[..i], MethodBlock)
    {
      FlatMapStep(s.methods, i, MethodBlock);
      Assoc(header, FlatMap(s.methods[..i], MethodBlock), MethodBlock(s.methods[i]));
      sb := sb + MethodBlock(s.methods[i]);
      i := i + 1;
    }
    FlatMapWhole(s.methods, MethodBlock);
    text := sb + ServiceEnd;
  }

  lemma Assoc(a: string, b: string, c: string)
    ensures a + b + c == a + (b + c)
  {
  }

  /** The text opens with the syntax line and the package, the lower-cased
    * service type, and closes the service. */
  lemma ProtoPackage(s: ServiceDefinition)
    ensures HasPrefix(Proto(s), SyntaxLine + PackageStart + Lower(s.serviceType) + StatementEnd)
    ensures HasSuffix(Proto(s), ServiceEnd)
  {
    var blocks := FlatMap(s.methods, MethodBlock);
    ConcatPrefix(PackageLines(s), ServiceOpening(s));
    ConcatPrefix(ProtoHeader(s), blocks);
    ConcatPrefix(ProtoHeader(s) + blocks, ServiceEnd);
    PrefixTrans(Proto(s), ProtoHeader(s) + blocks, ProtoHeader(s));
    PrefixTrans(Proto(s), ProtoHeader(s), PackageLines(s));
    ConcatSuffix(ProtoHeader(s) + blocks, ServiceEnd);
  }

  /** A method's block carries the deprecation option right after its comment
    * exactly when the method is deprecated. */
  lemma DeprecatedOptionIff(m: MethodDefinition)
    ensures HasPrefix(MethodBlock(m), CommentLine(m))
    ensures HasPrefix(MethodBlock(m)[|CommentLine(m)|..], DeprecatedOption) <==> m.deprecated
  {
    var c := CommentLine(m);
    var tail := Deprecation(m) + RpcLine(m);
    Assoc(c, Deprecation(m), RpcLine(m));
    ConcatPrefix(c, tail);
    assert (c + tail)[|c|..] == tail;
    if m.deprecated {
      ConcatPrefix(DeprecatedOption, RpcLine(m));
    } else {
      assert tail == RpcLine(m);
      assert RpcLine(m)[2] == RpcStart[2];
      assert RpcStart[2] == 'r' && DeprecatedOption[2] == 'o';
    }
  }

  /** Every method of the service is declared by its rpc line. */
  lemma EveryMethodDeclared(s: ServiceDefinition, i: nat)
    requires i < |s.methods|
    ensures Contains(Proto(s), RpcLine(s.methods[i]))
  {
    var m := s.methods[i];
    var before := FlatMap(s.methods[..i], MethodBlock);
    var after := FlatMap(s.methods[i + 1..], MethodBlock);
    var lead := CommentLine(m) + Deprecation(m);
    var line := RpcLine(m);
    FlatMapAround(s.methods, i, MethodBlock);
    var pre := ProtoHeader(s) + before + lead;
    var post := after + ServiceEnd;
    SplitAround(ProtoHeader(s), before, lead, line, after, ServiceEnd);
    ConcatContains(pre, line, post);
  }

  lemma SplitAround(h: string, b: string, l: string, x: string, a: string, e: string)
    ensures h + (b + (l + x) + a) + e == (h + b + l) + x + (a + e)
  {
  }
}
