/** Application settings read once from the environment. String settings
    fall back to a default when their variable is unset or empty; feature
    flags are on only for the exact string "true". */
module Config {
  import opened Common
  import opened Js

  /** `process.env`: variable name to value; an unset variable is absent. */
  type Env = map<string, string>

  const DEFAULT_APP_NAME := "Minisource App"
  const DEFAULT_APP_URL := "http://localhost:3000"
  const DEFAULT_APP_VERSION := "1.0.0"
  const DEFAULT_API_URL := "http://localhost:8080/api"
  const DEFAULT_TIMEOUT: int := 30000

  datatype AppSettings = AppSettings(name: string, url: string, version: string)
  datatype ApiSettings = ApiSettings(baseUrl: string, timeout: int)
  datatype Features = Features(analytics: bool, pwa: bool)
  datatype Settings = Settings(app: AppSettings, api: ApiSettings, features: Features)

  /** `process.env.NAME || fallback` */
  function StringSetting(env: Env, name: string, fallback: string): (r: string)
    requires fallback != ""
    ensures r != ""
    ensures name in env && env[name] != "" ==> r == env[name]
    ensures name !in env || env[name] == "" ==> r == fallback
  {
    Or(GetItem(env, name), fallback)
  }

  /** `Number(process.env.NAME) || fallback`. `toNumber` is `Number` on a
      non-empty string, None standing for NaN. `Number(undefined)` is NaN and
      `Number("")` is 0, both falsy, and so is a parsed 0. */
  function NumberSetting(env: Env, name: string, fallback: int, toNumber: string -> Option<int>): (r: int)
    ensures name !in env || env[name] == "" ==> r == fallback
    ensures name in env && env[name] != "" ==>
      r == (if toNumber(env[name]).Some? && toNumber(env[name]).value != 0 then toNumber(env[name]).value
            else fallback)
  {
    if name !in env || env[name] == "" then fallback
    else match toNumber(env[name])
      case Some(n) => if n != 0 then n else fallback
      case None => fallback
  }

  /** `process.env.NAME === 'true'` */
  function Flag(env: Env, name: string): (r: bool)
    ensures r <==> name in env && env[name] == "true"
  {
    GetItem(env, name) == Some("true")
  }

  /** The `config` object. */
  function Load(env: Env, toNumber: string -> Option<int>): (c: Settings)
    ensures c.app.name == StringSetting(env, "NEXT_PUBLIC_APP_NAME", DEFAULT_APP_NAME)
    ensures c.app.url == StringSetting(env, "NEXT_PUBLIC_APP_URL", DEFAULT_APP_URL)
    ensures c.app.version == StringSetting(env, "NEXT_PUBLIC_APP_VERSION", DEFAULT_APP_VERSION)
    ensures c.api.baseUrl == StringSetting(env, "NEXT_PUBLIC_API_URL", DEFAULT_API_URL)
    ensures c.api.timeout == NumberSetting(env, "NEXT_PUBLIC_API_TIMEOUT", DEFAULT_TIMEOUT, toNumber)
    ensures c.api.timeout != 0
    ensures c.features.analytics <==> Flag(env, "NEXT_PUBLIC_ENABLE_ANALYTICS")
    ensures c.features.pwa <==> Flag(env, "NEXT_PUBLIC_ENABLE_PWA")
  {
    Settings(
      AppSettings(
        StringSetting(env, "NEXT_PUBLIC_APP_NAME", DEFAULT_APP_NAME),
        StringSetting(env, "NEXT_PUBLIC_APP_URL", DEFAULT_APP_URL),
        StringSetting(env, "NEXT_PUBLIC_APP_VERSION", DEFAULT_APP_VERSION)),
      ApiSettings(
        StringSetting(env, "NEXT_PUBLIC_API_URL", DEFAULT_API_URL),
        NumberSetting(env, "NEXT_PUBLIC_API_TIMEOUT", DEFAULT_TIMEOUT, toNumber)),
      Features(
        Flag(env, "NEXT_PUBLIC_ENABLE_ANALYTICS"),
        Flag(env, "NEXT_PUBLIC_ENABLE_PWA")))
  }

  /** With no variable set, every setting takes its default and every
      feature is off. */
  lemma EmptyEnvironmentGivesDefaults(toNumber: string -> Option<int>)
    ensures Load(map[], toNumber) ==
      Settings(AppSettings(DEFAULT_APP_NAME, DEFAULT_APP_URL, DEFAULT_APP_VERSION),
               ApiSettings(DEFAULT_API_URL, DEFAULT_TIMEOUT),
               Features(false, false))
  {
  }

  /** An empty variable behaves exactly like an unset one. */
  lemma EmptyIsUnset(env: Env, name: string, toNumber: string -> Option<int>)
    ensures Load(env[name := ""], toNumber) == Load(env - {name}, toNumber)
  {
  }

  /** Flags accept only the exact lower-case spelling. */
  lemma FlagIsExact(env: Env, name: string)
    ensures !Flag(env[name := "TRUE"], name) && !Flag(env[name := "1"], name)
    ensures Flag(env[name := "true"], name)
  {
  }
}
