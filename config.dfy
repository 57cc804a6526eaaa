/**
 * Environment resolution and URL joining (lib/config.ts). The process
 * environment is a parameter: each variable is unset (`None`) or a string.
 */
module Config {
  import opened Wrappers
  import opened Text

  datatype Environment = Development | Uat | Production

  /** The environment variables the configuration reads. */
  datatype EnvVars = EnvVars(
    nextPublicEnv: Option<string>,
    nodeEnv: Option<string>,
    apiBaseUrl: Option<string>,
    backendUrl: Option<string>)

  datatype AppConfig = AppConfig(
    env: Environment,
    apiBaseUrl: string,
    backendUrl: string,
    isDevelopment: bool,
    isUAT: bool,
    isProduction: bool)

  /** `NEXT_PUBLIC_ENV || NODE_ENV || 'development'`. */
  function EnvironmentName(vars: EnvVars): (name: string)
    ensures Truthy(vars.nextPublicEnv) ==> name == vars.nextPublicEnv.value
    ensures !Truthy(vars.nextPublicEnv) && Truthy(vars.nodeEnv) ==> name == vars.nodeEnv.value
    ensures !Truthy(vars.nextPublicEnv) && !Truthy(vars.nodeEnv) ==> name == "development"
    ensures name != ""
  {
    OrElse(vars.nextPublicEnv, OrElse(vars.nodeEnv, "development"))
  }

  /** `getEnvironment`: 'production' and 'prod' name production, 'uat' names UAT, anything else development. */
  function GetEnvironment(vars: EnvVars): (env: Environment)
    ensures env == Production <==> EnvironmentName(vars) == "production" || EnvironmentName(vars) == "prod"
    ensures env == Uat <==> EnvironmentName(vars) == "uat"
    ensures env == Development <==> EnvironmentName(vars) !in {"production", "prod", "uat"}
  {
    var name := EnvironmentName(vars);
    if name == "production" || name == "prod" then Production
    else if name == "uat" then Uat
    else Development
  }

  /** `getConfig`: exactly one environment flag is set, the one naming `env`; unset URLs become ''. */
  function GetConfig(vars: EnvVars): (config: AppConfig)
    ensures config.env == GetEnvironment(vars)
    ensures config.isDevelopment <==> config.env == Development
    ensures config.isUAT <==> config.env == Uat
    ensures config.isProduction <==> config.env == Production
    ensures (if config.isDevelopment then 1 else 0) + (if config.isUAT then 1 else 0) + (if config.isProduction then 1 else 0) == 1
    ensures config.apiBaseUrl == OrElse(vars.apiBaseUrl, "")
    ensures config.backendUrl == OrElse(vars.backendUrl, "")
  {
    var env := GetEnvironment(vars);
    AppConfig(
      env,
      OrElse(vars.apiBaseUrl, ""),
      OrElse(vars.backendUrl, ""),
      env == Development,
      env == Uat,
      env == Production)
  }

  /** `base.replace(/\/$/, '')`: at most one trailing slash is removed. */
  function StripTrailingSlash(base: string): (r: string)
    ensures EndsWith(base, "/") ==> r + "/" == base
    ensures !EndsWith(base, "/") ==> r == base
  {
    if EndsWith(base, "/") then base[..|base| - 1] else base
  }

  /** The endpoint with a leading slash, added only when it is missing. */
  function EndpointPath(endpoint: string): (path: string)
    ensures StartsWith(path, "/")
    ensures StartsWith(endpoint, "/") ==> path == endpoint
    ensures !StartsWith(endpoint, "/") ==> path == "/" + endpoint
  {
    if StartsWith(endpoint, "/") then endpoint else "/" + endpoint
  }

  /** The base URL joined with an endpoint, as `getApiUrl` and `getBackendUrl` both build it. */
  function JoinUrl(base: string, endpoint: string): (url: string)
    ensures EndsWith(url, endpoint)
    ensures !EndsWith(base, "/") ==> StartsWith(url, base)
    ensures EndsWith(base, "/") ==> StartsWith(url, base[..|base| - 1])
  {
    var b := StripTrailingSlash(base);
    var path := EndpointPath(endpoint);
    assert (b + path)[|b + path| - |endpoint|..] == endpoint by {
      assert path[|path| - |endpoint|..] == endpoint;
    }
    b + path
  }

  /** `getApiUrl`. */
  function GetApiUrl(config: AppConfig, endpoint: string): (url: string)
    ensures StartsWith(url, StripTrailingSlash(config.apiBaseUrl))
    ensures url[|StripTrailingSlash(config.apiBaseUrl)|..] == EndpointPath(endpoint)
  {
    JoinUrl(config.apiBaseUrl, endpoint)
  }

  /** `getBackendUrl`. */
  function GetBackendUrl(config: AppConfig, endpoint: string): (url: string)
    ensures StartsWith(url, StripTrailingSlash(config.backendUrl))
    ensures url[|StripTrailingSlash(config.backendUrl)|..] == EndpointPath(endpoint)
  {
    JoinUrl(config.backendUrl, endpoint)
  }

  /**
   * The joined URL is the base minus at most one trailing slash, then a
   * path that starts with '/': a base ending in "//" keeps one slash, and an
   * endpoint that already starts with '/' is used unchanged.
   */
  lemma JoinUrlShape(base: string, endpoint: string)
    ensures exists b :: (b == base || b + "/" == base) && JoinUrl(base, endpoint) == b + EndpointPath(endpoint)
    ensures EndsWith(base, "//") ==> JoinUrl(base, endpoint)[..|base|] == base[..|base| - 1] + "/"
    ensures StartsWith(endpoint, "/") ==> JoinUrl(base, endpoint) == StripTrailingSlash(base) + endpoint
  {
    var b := StripTrailingSlash(base);
    assert JoinUrl(base, endpoint) == b + EndpointPath(endpoint);
    if EndsWith(base, "//") {
      assert b == base[..|base| - 1];
      assert b[|b| - 1] == '/';
      assert base[..|base| - 1] + "/" == b[..|b| - 1] + "/" + "/";
    }
  }

  /** One trailing slash on the base makes no difference to the joined URL. */
  lemma JoinUrlTrailingSlashIrrelevant(base: string, endpoint: string)
    requires !EndsWith(base, "/")
    ensures JoinUrl(base + "/", endpoint) == JoinUrl(base, endpoint)
  {
    assert (base + "/")[..|base|] == base;
  }

  /** With NEXT_PUBLIC_API_BASE_URL unset or empty, an API URL is just the endpoint's path. */
  lemma MissingApiBaseUrl(vars: EnvVars, endpoint: string)
    requires !Truthy(vars.apiBaseUrl)
    ensures GetApiUrl(GetConfig(vars), endpoint) == EndpointPath(endpoint)
  {
  }

  /** `getBackendUrl` behaves as `getApiUrl` does, over the backend base instead. */
  lemma BackendUrlMirrorsApiUrl(vars: EnvVars, endpoint: string)
    requires OrElse(vars.apiBaseUrl, "") == OrElse(vars.backendUrl, "")
    ensures GetBackendUrl(GetConfig(vars), endpoint) == GetApiUrl(GetConfig(vars), endpoint)
  {
  }
}
