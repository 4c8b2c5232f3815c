/** The API base URL: where it is read from, how it is normalised, and how paths join it. */
module Config {
  import opened Common
  import opened Js
  import opened Strings

  const DEFAULT_DEV_BASE_URL: string := "http://localhost:3000/api"
  const DEFAULT_PROD_BASE_URL: string := "https://api.example.com"

  /** `value?.replace(/\/$/, "") ?? undefined`: one trailing slash is dropped. */
  function Normalize(value: Option<string>): (r: Option<string>)
    ensures r.Some? <==> value.Some?
    ensures value.Some? && EndsWith(value.value, "/") ==> r.value + "/" == value.value
    ensures value.Some? && !EndsWith(value.value, "/") ==> r.value == value.value
  {
    match value
    case None => None
    case Some(s) => Some(if EndsWith(s, "/") then s[..|s| - 1] else s)
  }

  /**
   * `resolveEnvBaseUrl()`: the environment variable, then `expoConfig.extra.apiBaseUrl`,
   * then the legacy `manifest2.extra.apiBaseUrl` when it is a string.
   */
  function ResolveEnvBaseUrl(fromProcess: Option<string>, extraApiBaseUrl: Option<string>, legacy: JsValue)
    : (r: Option<string>)
    ensures TruthyString(Normalize(fromProcess)) ==> r == Normalize(fromProcess)
    ensures !TruthyString(Normalize(fromProcess)) && TruthyString(extraApiBaseUrl) ==> r == Normalize(extraApiBaseUrl)
    ensures !TruthyString(Normalize(fromProcess)) && !TruthyString(extraApiBaseUrl) ==>
      r == (if legacy.Str? then Normalize(Some(legacy.s)) else None)
  {
    var normalized := Normalize(fromProcess);
    if TruthyString(normalized) then normalized
    else if TruthyString(extraApiBaseUrl) then Normalize(extraApiBaseUrl)
    else if legacy.Str? then Normalize(Some(legacy.s))
    else None
  }

  /** `API_BASE_URL`: a built-in default only when nothing was resolved at all. */
  function ApiBaseUrl(resolved: Option<string>, nodeEnv: Option<string>): (r: string)
    ensures resolved.Some? ==> r == resolved.value
    ensures resolved.None? ==> r == if nodeEnv == Some("development") then DEFAULT_DEV_BASE_URL else DEFAULT_PROD_BASE_URL
  {
    match resolved
    case Some(url) => url
    case None => if nodeEnv == Some("development") then DEFAULT_DEV_BASE_URL else DEFAULT_PROD_BASE_URL
  }

  /** `withApiPath(path)`: the base, one slash, then the path without its leading slash. */
  function WithApiPath(base: string, path: string): (r: string)
    ensures |r| > |base| && r[..|base|] == base && r[|base|] == '/'
    ensures StartsWith(path, "/") ==> r[|base|..] == path
    ensures !StartsWith(path, "/") ==> r[|base| + 1..] == path
  {
    base + (if StartsWith(path, "/") then path else "/" + path)
  }

  /** A path with or without its leading slash reaches the same URL. */
  lemma WithApiPathSlashOptional(base: string, x: string)
    requires !StartsWith(x, "/")
    ensures WithApiPath(base, x) == WithApiPath(base, "/" + x)
  {
    assert StartsWith("/" + x, "/") by { assert ("/" + x)[..1] == "/"; }
  }

  /** A set environment variable wins over every configuration entry. */
  lemma EnvironmentWins(env: string, extra: Option<string>, legacy: JsValue, nodeEnv: Option<string>)
    requires env != "" && env != "/"
    ensures ApiBaseUrl(ResolveEnvBaseUrl(Some(env), extra, legacy), nodeEnv) == Normalize(Some(env)).value
  {
  }

  /**
   * An empty resolved value is kept: a legacy `""`, or an `extra` value of `"/"`,
   * yields an empty base instead of the defaults, since `??` only skips null and undefined.
   */
  lemma EmptyBaseIsKept(nodeEnv: Option<string>)
    ensures ApiBaseUrl(ResolveEnvBaseUrl(None, None, Str("")), nodeEnv) == ""
    ensures ApiBaseUrl(ResolveEnvBaseUrl(None, Some("/"), Undefined), nodeEnv) == ""
  {
    assert EndsWith("/", "/") by { assert "/"[1 - 1..] == "/"; }
  }

  /** With nothing configured the default follows `NODE_ENV`. */
  lemma DefaultsFollowNodeEnv(legacy: JsValue, nodeEnv: Option<string>)
    requires !legacy.Str?
    ensures ApiBaseUrl(ResolveEnvBaseUrl(None, None, legacy), nodeEnv) ==
      if nodeEnv == Some("development") then "http://localhost:3000/api" else "https://api.example.com"
  {
  }
}
