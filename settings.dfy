/**
 * Reading the environment and validating it at start-up (index.js lines 5-25).
 */
module Settings {
  import opened Wrappers
  import opened JsRuntime

  /** `process.env`: a name that is not a key reads as `undefined`. */
  type Env = map<string, string>

  function Lookup(env: Env, name: string): Option<string> {
    if name in env then Some(env[name]) else None
  }

  /** JavaScript truthiness of an environment value, which is `undefined` or a string. */
  predicate Present(v: Option<string>) {
    v.Some? && Truthy(Str(v.value))
  }

  const DefaultVlcUrl: string := "http://localhost:8080/requests/status.json"
  const DefaultVlcCommand: string := "pl_next"
  const DefaultVlcTimeout: string := "5000"

  /** `v || fallback`: an undefined or empty value takes the fallback, any other value is kept as is. */
  function OrElse(v: Option<string>, fallback: string): (r: string)
    ensures Present(v) ==> r == v.value
    ensures !Present(v) ==> r == fallback
    ensures r == "" ==> fallback == ""
  {
    if Present(v) then v.value else fallback
  }

  /** `(v ?? "").trim()`: only an undefined value is replaced, "" is kept, and the result is trimmed. */
  function TrimmedOrEmpty(v: Option<string>): (r: string)
    ensures Trimmed(r)
    ensures v.None? ==> r == ""
    ensures v.Some? ==> r == Trim(v.value)
  {
    match v
    case None => ""
    case Some(s) => TrimTrimmed(s); Trim(s)
  }

  /** The module-level constants as read from the environment. */
  datatype Config = Config(
    username: Option<string>,
    signApiKey: Option<string>,
    vlcUrl: string,
    vlcCommand: string,
    vlcUsername: string,
    vlcPassword: string,
    vlcTimeout: string)

  function ReadSettings(env: Env): (s: Config)
    ensures s.username == Lookup(env, "TIKTOK_USERNAME") && s.signApiKey == Lookup(env, "SIGN_API_KEY")
    ensures s.vlcUrl != "" && s.vlcCommand != "" && s.vlcTimeout != ""
    ensures Present(Lookup(env, "VLC_URL")) ==> s.vlcUrl == env["VLC_URL"]
    ensures !Present(Lookup(env, "VLC_URL")) ==> s.vlcUrl == DefaultVlcUrl
    ensures Present(Lookup(env, "VLC_COMMAND")) ==> s.vlcCommand == env["VLC_COMMAND"]
    ensures !Present(Lookup(env, "VLC_COMMAND")) ==> s.vlcCommand == DefaultVlcCommand
    ensures Trimmed(s.vlcUsername) && Trimmed(s.vlcPassword)
    ensures "VLC_PASSWORD" !in env ==> s.vlcPassword == ""
    ensures "VLC_USERNAME" !in env ==> s.vlcUsername == ""
    ensures "VLC_PASSWORD" in env ==> s.vlcPassword == Trim(env["VLC_PASSWORD"])
    ensures "VLC_USERNAME" in env ==> s.vlcUsername == Trim(env["VLC_USERNAME"])
    ensures Present(Lookup(env, "VLC_TIMEOUT_MS")) ==> s.vlcTimeout == env["VLC_TIMEOUT_MS"]
    ensures !Present(Lookup(env, "VLC_TIMEOUT_MS")) ==> s.vlcTimeout == DefaultVlcTimeout
  {
    Config(
      Lookup(env, "TIKTOK_USERNAME"),
      Lookup(env, "SIGN_API_KEY"),
      OrElse(Lookup(env, "VLC_URL"), DefaultVlcUrl),
      OrElse(Lookup(env, "VLC_COMMAND"), DefaultVlcCommand),
      TrimmedOrEmpty(Lookup(env, "VLC_USERNAME")),
      TrimmedOrEmpty(Lookup(env, "VLC_PASSWORD")),
      OrElse(Lookup(env, "VLC_TIMEOUT_MS"), DefaultVlcTimeout))
  }

  /** Why the process exits before connecting. */
  datatype ExitReason = MissingCredentials | InvalidVlcUrl

  datatype Startup =
    | Exit(code: int, reason: ExitReason)
    | Run(config: Config)

  /**
   * Start-up: both credentials must be truthy (lines 14-17), then `new URL(VLC_URL)`
   * must succeed (lines 20-25). `isAbsoluteUrl` stands for that constructor not throwing.
   */
  function Start(env: Env, isAbsoluteUrl: string -> bool): (r: Startup)
    ensures r.Exit? ==> r.code == 1
    ensures (r.Exit? && r.reason == MissingCredentials)
        <==> !Present(Lookup(env, "TIKTOK_USERNAME")) || !Present(Lookup(env, "SIGN_API_KEY"))
    ensures (r.Exit? && r.reason == InvalidVlcUrl)
        <==> Present(Lookup(env, "TIKTOK_USERNAME")) && Present(Lookup(env, "SIGN_API_KEY"))
             && !isAbsoluteUrl(ReadSettings(env).vlcUrl)
    ensures r.Run? ==> r.config == ReadSettings(env)
    ensures r.Run? ==> Present(r.config.username) && Present(r.config.signApiKey)
                       && isAbsoluteUrl(r.config.vlcUrl)
  {
    var s := ReadSettings(env);
    if !Present(s.username) || !Present(s.signApiKey) then Exit(1, MissingCredentials)
    else if !isAbsoluteUrl(s.vlcUrl) then Exit(1, InvalidVlcUrl)
    else Run(s)
  }

  /** The two fallback styles differ exactly on "": `||` replaces it, `?? ""` keeps it. */
  lemma EmptyValueFallback(fallback: string)
    ensures OrElse(Some(""), fallback) == fallback
    ensures TrimmedOrEmpty(Some("")) == ""
  {
  }

  /** Reading a `?? ""` value a second time changes nothing. */
  lemma TrimmedOrEmptyIdempotent(v: Option<string>)
    ensures TrimmedOrEmpty(Some(TrimmedOrEmpty(v))) == TrimmedOrEmpty(v)
  {
  }
}
