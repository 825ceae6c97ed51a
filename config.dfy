/** Loading the bridge's settings from the environment. The environment is a
    map from variable names to values, and the file system a map from paths
    to the text of the files that exist there. */
module Config {
  import opened Wrappers
  import opened PyText

  const TokenFileVar: string := "ASANA_TOKEN_FILE"
  const AccessTokenVar: string := "ASANA_ACCESS_TOKEN"
  const ApiBaseVar: string := "ASANA_API_BASE"
  const TimeoutVar: string := "ASANA_TIMEOUT_SECONDS"
  const MaxRetriesVar: string := "ASANA_MAX_RETRIES"
  const LogLevelVar: string := "LOG_LEVEL"
  const LogFileVar: string := "LOG_FILE"

  const DefaultApiBase: string := "https://app.asana.com/api/1.0"
  const DefaultTimeout: string := "30"
  const DefaultMaxRetries: string := "3"
  const DefaultLogLevel: string := "INFO"
  const DefaultLogFile: string := "logs/asana-mcp.log"

  /** The loaded configuration. The timeout is kept as the text of its
      variable (its conversion to a float is not part of this model). */
  datatype Settings = Settings(
    accessToken: string,
    apiBase: string,
    timeoutSeconds: string,
    maxRetries: int,
    logLevel: string,
    logFile: string)

  /** The field constraint on Settings: the token has at least one character. */
  predicate ValidSettings(s: Settings) {
    |s.accessToken| >= 1
  }

  /** Why loading failed: the two RuntimeErrors the loader raises, and the
      ValueError int() raises on a malformed retry count. */
  datatype ConfigError =
    | TokenFileBlank
    | InvalidConfiguration
    | MaxRetriesNotInteger(text: string)

  /** `os.getenv(name, default)`. */
  function Getenv(env: map<string, string>, name: string, default: string): string {
    if name in env then env[name] else default
  }

  /** The stripped text of the token file, or "" when there is no such file. */
  function TokenFromFile(path: string, files: map<string, string>): string {
    if path in files then Strip(files[path]) else ""
  }

  /** The token-selection half of `Settings.from_env`: a token-file variable
      that is blank after stripping is an error; otherwise the stripped file
      content wins when it is non-empty, and the access-token variable,
      verbatim (or "" when unset), is used in every other case. */
  function SelectToken(env: map<string, string>, files: map<string, string>): (r: Result<string, ConfigError>)
    ensures r.Failure? <==> TokenFileVar in env && Strip(env[TokenFileVar]) == []
    ensures r.Failure? ==> r.error == TokenFileBlank
  {
    if TokenFileVar in env then
      var tokenFile := env[TokenFileVar];
      if Strip(tokenFile) == [] then Failure(TokenFileBlank)
      else
        var fromFile := TokenFromFile(tokenFile, files);
        Success(if fromFile != "" then fromFile else Getenv(env, AccessTokenVar, ""))
    else
      Success(Getenv(env, AccessTokenVar, ""))
  }

  /** `Settings.from_env`: selects the token, fills every other field from
      its variable or its default, and refuses settings without a token. */
  function FromEnv(env: map<string, string>, files: map<string, string>): (r: Result<Settings, ConfigError>)
    ensures r.Success? <==>
      SelectToken(env, files).Success? && SelectToken(env, files).value != [] && RetriesParse(env)
    ensures r.Success? ==> ValidSettings(r.value)
    ensures r.Success? ==> SelectToken(env, files) == Success(r.value.accessToken)
    ensures r.Success? ==>
      && r.value.apiBase == Getenv(env, ApiBaseVar, DefaultApiBase)
      && r.value.timeoutSeconds == Getenv(env, TimeoutVar, DefaultTimeout)
      && ParseInt(Getenv(env, MaxRetriesVar, DefaultMaxRetries)) == Some(r.value.maxRetries)
      && r.value.logLevel == Getenv(env, LogLevelVar, DefaultLogLevel)
      && r.value.logFile == Getenv(env, LogFileVar, DefaultLogFile)
    ensures SelectToken(env, files).Failure? ==> r == Failure(TokenFileBlank)
  {
    match SelectToken(env, files)
    case Failure(e) => Failure(e)
    case Success(token) =>
      var retriesText := Getenv(env, MaxRetriesVar, DefaultMaxRetries);
      match ParseInt(retriesText)
      case None => Failure(MaxRetriesNotInteger(retriesText))
      case Some(maxRetries) =>
        var settings := Settings(
          token,
          Getenv(env, ApiBaseVar, DefaultApiBase),
          Getenv(env, TimeoutVar, DefaultTimeout),
          maxRetries,
          Getenv(env, LogLevelVar, DefaultLogLevel),
          Getenv(env, LogFileVar, DefaultLogFile));
        if ValidSettings(settings) then Success(settings) else Failure(InvalidConfiguration)
  }

  /** The retry count read from the environment is well-formed. */
  predicate RetriesParse(env: map<string, string>) {
    ParseInt(Getenv(env, MaxRetriesVar, DefaultMaxRetries)).Some?
  }

  /** Every variable that is set is taken as it is (the retry count
      through int()), and every one that is unset takes its default,
      whatever else the environment and the file system hold. */
  lemma UnsetVariablesTakeDefaults(env: map<string, string>, files: map<string, string>)
    requires FromEnv(env, files).Success?
    ensures var s := FromEnv(env, files).value;
      && (ApiBaseVar in env ==> s.apiBase == env[ApiBaseVar])
      && (ApiBaseVar !in env ==> s.apiBase == "https://app.asana.com/api/1.0")
      && (TimeoutVar in env ==> s.timeoutSeconds == env[TimeoutVar])
      && (TimeoutVar !in env ==> s.timeoutSeconds == "30")
      && (MaxRetriesVar in env ==> ParseInt(env[MaxRetriesVar]) == Some(s.maxRetries))
      && (MaxRetriesVar !in env ==> s.maxRetries == 3)
      && (LogLevelVar in env ==> s.logLevel == env[LogLevelVar])
      && (LogLevelVar !in env ==> s.logLevel == "INFO")
      && (LogFileVar in env ==> s.logFile == env[LogFileVar])
      && (LogFileVar !in env ==> s.logFile == "logs/asana-mcp.log")
  {
    if MaxRetriesVar !in env {
      assert ShowNat(3) == DefaultMaxRetries;
      ParseIntShowNat(3);
    }
  }

  /** A token-file variable that is present but blank stops loading. */
  lemma BlankTokenFileFails(env: map<string, string>, files: map<string, string>)
    requires TokenFileVar in env
    requires forall i | 0 <= i < |env[TokenFileVar]| :: env[TokenFileVar][i] in Whitespace
    ensures FromEnv(env, files) == Failure(TokenFileBlank)
  {
  }

  /** A token file that exists and holds a non-blank token supplies the
      token, stripped, whatever the access-token variable says. */
  lemma TokenFileWins(env: map<string, string>, files: map<string, string>)
    requires TokenFileVar in env && env[TokenFileVar] in files
    requires exists i | 0 <= i < |env[TokenFileVar]| :: env[TokenFileVar][i] !in Whitespace
    requires exists i | 0 <= i < |files[env[TokenFileVar]]| :: files[env[TokenFileVar]][i] !in Whitespace
    requires RetriesParse(env)
    ensures FromEnv(env, files).Success?
    ensures FromEnv(env, files).value.accessToken == Strip(files[env[TokenFileVar]])
  {
  }

  /** Without a usable token file (no variable, no such file, or a file
      that is blank after stripping) the access-token variable is used as
      it is, surrounding whitespace included, and loading fails exactly
      when it is unset or empty. */
  lemma EnvTokenFallback(env: map<string, string>, files: map<string, string>)
    requires TokenFileVar in env ==>
      Strip(env[TokenFileVar]) != [] && TokenFromFile(env[TokenFileVar], files) == []
    requires RetriesParse(env)
    ensures var token := Getenv(env, AccessTokenVar, "");
      (token != [] ==> FromEnv(env, files).Success? && FromEnv(env, files).value.accessToken == token) &&
      (token == [] ==> FromEnv(env, files) == Failure(InvalidConfiguration))
  {
  }

  /** Loading fails rather than returning settings whenever the selected
      token is empty. */
  lemma EmptyTokenRejected(env: map<string, string>, files: map<string, string>)
    requires SelectToken(env, files) == Success("")
    requires RetriesParse(env)
    ensures FromEnv(env, files) == Failure(InvalidConfiguration)
  {
  }

  /** A malformed retry count raises before the token is checked. */
  lemma MalformedRetriesRaise(env: map<string, string>, files: map<string, string>)
    requires SelectToken(env, files).Success?
    requires !RetriesParse(env)
    ensures FromEnv(env, files) == Failure(MaxRetriesNotInteger(Getenv(env, MaxRetriesVar, DefaultMaxRetries)))
  {
  }

  /** With only a token in the environment every other setting takes its
      default: the public API base, 30 seconds, 3 retries, level INFO and
      the log file under logs/. */
  lemma Defaults(token: string)
    requires token != []
    ensures FromEnv(map[AccessTokenVar := token], map[]) ==
      Success(Settings(token, "https://app.asana.com/api/1.0", "30", 3, "INFO", "logs/asana-mcp.log"))
  {
    var env := map[AccessTokenVar := token];
    assert TokenFileVar !in env;
    assert SelectToken(env, map[]) == Success(token);
    assert MaxRetriesVar !in env && ApiBaseVar !in env && TimeoutVar !in env;
    assert LogLevelVar !in env && LogFileVar !in env;
    assert ShowNat(3) == DefaultMaxRetries;
    ParseIntShowNat(3);
  }
}
