/** Configuration derived from the process environment
    (web-next/src/config/app.ts). Every record is a function of an
    environment map, computed once at start-up in the source. */
module AppConfig {
  import opened Core

  /** The process environment: a variable that is not in the map is unset. */
  type Env = map<string, string>

  function Lookup(env: Env, key: string): (r: Option<string>)
    ensures r.Some? <==> key in env
    ensures r.Some? ==> r.value == env[key]
  {
    if key in env then Some(env[key]) else None
  }

  /** `process.env[key] || fallback`: an unset and an empty variable both
      give the fallback. */
  function EnvOr(env: Env, key: string, fallback: string): (r: string)
    ensures key in env && env[key] != "" ==> r == env[key]
    ensures !(key in env && env[key] != "") ==> r == fallback
  {
    StringOr(Lookup(env, key), fallback)
  }

  /** A variable that is set and non-empty. */
  predicate IsSet(env: Env, key: string)
  {
    key in env && env[key] != ""
  }

  const ProjectIdVar := "SANITY_PROJECT_ID"
  const PlaceholderProjectId := "your_sanity_project_id_here"

  /** The variables `validateEnvVars` insists on. */
  const RequiredVars: seq<string> := [ProjectIdVar]

  /** The test `!value || value === 'your_sanity_project_id_here'`. */
  predicate IsMissing(env: Env, key: string)
  {
    var v := Lookup(env, key);
    v.None? || v.value == "" || v.value == PlaceholderProjectId
  }

  /** The required variables that are missing or still hold the placeholder,
      in the order they are listed. */
  function MissingVars(env: Env, vars: seq<string>): (missing: seq<string>)
    ensures forall k :: k in missing <==> k in vars && IsMissing(env, k)
    ensures |missing| <= |vars|
  {
    if vars == [] then []
    else if IsMissing(env, vars[0]) then [vars[0]] + MissingVars(env, vars[1..])
    else MissingVars(env, vars[1..])
  }

  /** `validateEnvVars()`, exported as `isConfigured`. */
  function IsConfigured(env: Env): (ok: bool)
    ensures !ok <==> ProjectIdVar !in env || env[ProjectIdVar] == "" || env[ProjectIdVar] == PlaceholderProjectId
  {
    |MissingVars(env, RequiredVars)| == 0
  }

  datatype SanityConfig = SanityConfig(projectId: string, dataset: string, apiVersion: string)

  /** The `environment` field is cast, not checked, in the source: any
      non-empty NODE_ENV value is taken as it is. */
  datatype AppConfigRecord = AppConfigRecord(
    sanity: SanityConfig,
    appName: string,
    isDebug: bool,
    environment: string)

  const SanityApiVersion := "2023-05-03"

  /** `defaultConfig`. */
  function DefaultConfig(env: Env): (c: AppConfigRecord)
    ensures c.sanity.projectId == (if IsSet(env, ProjectIdVar) then env[ProjectIdVar] else "")
    ensures c.sanity.dataset == (if IsSet(env, "SANITY_DATASET") then env["SANITY_DATASET"] else "production")
    ensures c.sanity.apiVersion == SanityApiVersion
    ensures c.appName == (if IsSet(env, "APP_NAME") then env["APP_NAME"] else "Design Wear")
    ensures c.isDebug <==> "NODE_ENV" in env && env["NODE_ENV"] == "development"
    ensures c.environment == (if IsSet(env, "NODE_ENV") then env["NODE_ENV"] else "development")
    // what the defaults guarantee
    ensures c.sanity.dataset != "" && c.appName != "" && c.environment != ""
    ensures c.isDebug ==> c.environment == "development"
    ensures IsConfigured(env) ==> c.sanity.projectId != "" && c.sanity.projectId != PlaceholderProjectId
  {
    AppConfigRecord(
      SanityConfig(EnvOr(env, ProjectIdVar, ""), EnvOr(env, "SANITY_DATASET", "production"), SanityApiVersion),
      EnvOr(env, "APP_NAME", "Design Wear"),
      Lookup(env, "NODE_ENV") == Some("development"),
      EnvOr(env, "NODE_ENV", "development"))
  }

  /** `environment` says "development" when NODE_ENV is unset, yet `isDebug`
      is false then: the two fields use different tests. */
  lemma UnsetNodeEnvIsDevelopmentButNotDebug(env: Env)
    requires "NODE_ENV" !in env
    ensures DefaultConfig(env).environment == "development"
    ensures !DefaultConfig(env).isDebug
  {
  }

  /** When the project id is configured, `defaultConfig` carries it unchanged. */
  lemma ConfiguredProjectIdIsCarried(env: Env)
    requires IsConfigured(env)
    ensures DefaultConfig(env).sanity.projectId == env[ProjectIdVar]
  {
  }

  datatype GoKwikConfig = GoKwikConfig(
    merchantId: string,
    apiKey: string,
    environment: string,
    isSandbox: bool,
    enableLogging: bool)

  /** `goKwikConfig`. */
  function GoKwik(env: Env): (c: GoKwikConfig)
    ensures c.merchantId == (if IsSet(env, "GOKWIK_MERCHANT_ID") then env["GOKWIK_MERCHANT_ID"] else "")
    ensures c.apiKey == (if IsSet(env, "GOKWIK_API_KEY") then env["GOKWIK_API_KEY"] else "")
    ensures c.environment == (if IsSet(env, "GOKWIK_ENVIRONMENT") then env["GOKWIK_ENVIRONMENT"] else "sandbox")
    ensures c.isSandbox <==> !("GOKWIK_ENVIRONMENT" in env && env["GOKWIK_ENVIRONMENT"] == "production")
    ensures c.enableLogging <==> "DEBUG_MODE" in env && env["DEBUG_MODE"] == "true"
    // the two environment fields agree, although they are computed differently
    ensures c.isSandbox <==> c.environment != "production"
    ensures c.environment != ""
  {
    GoKwikConfig(
      EnvOr(env, "GOKWIK_MERCHANT_ID", ""),
      EnvOr(env, "GOKWIK_API_KEY", ""),
      EnvOr(env, "GOKWIK_ENVIRONMENT", "sandbox"),
      Lookup(env, "GOKWIK_ENVIRONMENT") != Some("production"),
      Lookup(env, "DEBUG_MODE") == Some("true"))
  }

  /** With nothing set, GoKwik runs in the sandbox without logging. */
  lemma GoKwikUnsetDefaults()
    ensures GoKwik(map[]) == GoKwikConfig("", "", "sandbox", true, false)
  {
  }
}
