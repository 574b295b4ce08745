// The environment-dependent security settings of
// internal/security/env_security.go. The value of QUANT_ENV and the host
// name (absent when it cannot be read) are parameters; the warnings the
// logger would print are returned as a list.
module EnvSecurity {
  import opened Wrappers

  datatype EnvironmentType = Development | Staging | Production

  const RateOff := "off"
  const RateBasic := "basic"
  const RateStrict := "strict"
  const AuditOff := "off"
  const AuditBasic := "basic"
  const AuditVerbose := "verbose"

  datatype SecurityConfig = SecurityConfig(
    environment: EnvironmentType,
    authRequired: bool,
    adminCredentials: bool,
    tlsRequired: bool,
    strictFirewall: bool,
    ipMaskingEnabled: bool,
    rateLimitingLevel: string,
    auditLoggingLevel: string)

  /** GetEnvironmentType, given the value of QUANT_ENV. */
  function GetEnvironmentType(quantEnv: string): (e: EnvironmentType)
    ensures e == Production <==> quantEnv == "production"
    ensures e == Staging <==> quantEnv == "staging"
    ensures e == Development <==> quantEnv != "production" && quantEnv != "staging"
  {
    if quantEnv == "production" then Production
    else if quantEnv == "staging" then Staging
    else Development
  }

  /** IsLocalEnvironment, given the host name or `None` when it cannot be read. */
  function IsLocalEnvironment(hostname: Option<string>): (b: bool)
    ensures b <==> hostname == Some("localhost") || hostname == Some("127.0.0.1")
  {
    match hostname
    case None => false
    case Some(h) => h == "localhost" || h == "127.0.0.1"
  }

  /** The settings each environment starts from. */
  function BaseConfig(env: EnvironmentType): SecurityConfig
  {
    match env
    case Production => SecurityConfig(env, true, true, true, true, true, RateStrict, AuditVerbose)
    case Staging => SecurityConfig(env, true, true, true, false, true, RateBasic, AuditBasic)
    case Development => SecurityConfig(env, false, false, false, false, false, RateOff, AuditVerbose)
  }

  const AuthWarnings := ["SECURITY RISK: Running in production without authentication!",
                         "Forcing authentication for production environment"]
  const TlsWarnings := ["SECURITY RISK: Running in production without TLS!",
                        "Forcing TLS for production environment"]

  /** The override for production off a local machine: authentication and
    * TLS are forced on, with a warning for each. */
  function Enforce(c: SecurityConfig): (SecurityConfig, seq<string>)
  {
    var (c1, w1) := if !c.authRequired || !c.adminCredentials
      then (c.(authRequired := true, adminCredentials := true), AuthWarnings) else (c, []);
    if !c1.tlsRequired then (c1.(tlsRequired := true), w1 + TlsWarnings) else (c1, w1)
  }

  /** GetSecurityConfig: the configuration and the warnings logged. */
  function GetSecurityConfig(quantEnv: string, hostname: Option<string>): (r: (SecurityConfig, seq<string>))
    ensures r.0.environment == GetEnvironmentType(quantEnv)
    ensures r.0.environment == Production ==> (r.0.authRequired && r.0.adminCredentials && r.0.tlsRequired
      && r.0.strictFirewall && r.0.ipMaskingEnabled && r.0.rateLimitingLevel == RateStrict
      && r.0.auditLoggingLevel == AuditVerbose)
    ensures r.0.environment == Staging ==> (r.0.authRequired && r.0.adminCredentials && r.0.tlsRequired
      && !r.0.strictFirewall && r.0.ipMaskingEnabled && r.0.rateLimitingLevel == RateBasic
      && r.0.auditLoggingLevel == AuditBasic)
    ensures r.0.environment == Development ==> (!r.0.authRequired && !r.0.adminCredentials && !r.0.tlsRequired
      && !r.0.strictFirewall && !r.0.ipMaskingEnabled && r.0.rateLimitingLevel == RateOff
      && r.0.auditLoggingLevel == AuditVerbose)
  {
    var env := GetEnvironmentType(quantEnv);
    var config := BaseConfig(env);
    if env == Production && !IsLocalEnvironment(hostname) then Enforce(config) else (config, [])
  }

  /** Enforcing leaves a configuration with authentication, admin
    * credentials and TLS, and changes nothing else. */
  lemma EnforceSecures(c: SecurityConfig)
    ensures Enforce(c).0.authRequired && Enforce(c).0.adminCredentials && Enforce(c).0.tlsRequired
    ensures Enforce(c).0.(authRequired := c.authRequired, adminCredentials := c.adminCredentials,
      tlsRequired := c.tlsRequired) == c
    ensures Enforce(c).1 == [] <==> c.authRequired && c.adminCredentials && c.tlsRequired
  {
  }

  /** The production settings are already secure, so the override never
    * fires and nothing is logged. */
  lemma NoWarnings(quantEnv: string, hostname: Option<string>)
    ensures GetSecurityConfig(quantEnv, hostname).1 == []
  {
    EnforceSecures(BaseConfig(Production));
  }

  /** ValidateProductionSecurity. */
  function ValidateProductionSecurity(config: SecurityConfig): (err: Option<string>)
    ensures err.Some? <==> config.environment == Production && (!config.authRequired || !config.tlsRequired)
    ensures err.Some? && !config.authRequired ==> err.value == "authentication must be enabled in production environment"
    ensures err.Some? && config.authRequired ==> err.value == "TLS must be enabled in production environment"
  {
    if config.environment == Production then
      if !config.authRequired then Some("authentication must be enabled in production environment")
      else if !config.tlsRequired then Some("TLS must be enabled in production environment")
      else None
    else None
  }

  /** Whatever the environment and host, the configuration passes validation. */
  lemma ConfigValidates(quantEnv: string, hostname: Option<string>)
    ensures ValidateProductionSecurity(GetSecurityConfig(quantEnv, hostname).0).None?
  {
  }
}
