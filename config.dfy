/** Logger configuration: built-in defaults per environment, `BLOGGER_*`
    environment variables (the process environment is a map; an unset
    variable reads as ""), and overrides applied on top of a file config. */
module Config {
  import opened Common

  datatype LogConfig = LogConfig(
    env: string,
    serviceName: string,
    level: string,
    useJson: bool,
    fileEnabled: bool,
    filePath: string,
    fileSize: int,
    maxAge: int,
    maxBackups: int)

  type Environment = map<string, string>

  /** `os.Getenv`: "" for an unset variable. */
  function Getenv(environ: Environment, key: string): (v: string)
    ensures key !in environ ==> v == ""
    ensures key in environ ==> v == environ[key]
  {
    if key in environ then environ[key] else ""
  }

  /** Go's `int` on a 64-bit platform wraps around modulo 2^64. */
  const TwoTo63: int := 0x8000_0000_0000_0000
  const MaxInt64: int := TwoTo63 - 1

  function Wrap64(x: int): (r: int)
    ensures -TwoTo63 <= r <= MaxInt64
    ensures -TwoTo63 <= x <= MaxInt64 ==> r == x
  {
    (x + TwoTo63) % (2 * TwoTo63) - TwoTo63
  }

  predicate IsDigit(c: char) { '0' <= c <= '9' }

  predicate AllDigits(s: string)
  {
    forall i | 0 <= i < |s| :: IsDigit(s[i])
  }

  /** The mathematical decimal value of a digit string. */
  function DecimalValue(s: string): nat
    requires AllDigits(s)
  {
    if s == [] then 0
    else DecimalValue(s[..|s| - 1]) * 10 + (s[|s| - 1] as int - '0' as int)
  }

  /** The accumulator `result = result*10 + digit` in 64-bit arithmetic. */
  function Accumulated(s: string): int
    requires AllDigits(s)
  {
    if s == [] then 0
    else Wrap64(Accumulated(s[..|s| - 1]) * 10 + (s[|s| - 1] as int - '0' as int))
  }

  /** What `parseIntSafe` returns: the accumulated digits, or 0 as soon as a
      non-digit appears. */
  function ParsedInt(s: string): int
  {
    if AllDigits(s) then Accumulated(s) else 0
  }

  /** `parseIntSafe`. */
  method ParseIntSafe(s: string) returns (result: int)
    ensures result == ParsedInt(s)
    ensures s == "" ==> result == 0
    ensures !AllDigits(s) ==> result == 0
    ensures AllDigits(s) && DecimalValue(s) <= MaxInt64 ==> result == DecimalValue(s)
  {
    result := 0;
    var i := 0;
    while i < |s|
      invariant 0 <= i <= |s|
      invariant AllDigits(s[..i])
      invariant result == Accumulated(s[..i])
    {
      var c := s[i];
      if '0' <= c <= '9' {
        assert s[..i + 1][..i] == s[..i];
        result := Wrap64(result * 10 + (c as int - '0' as int));
        i := i + 1;
      } else {
        return 0;
      }
    }
    assert s[..i] == s;
    if AllDigits(s) && DecimalValue(s) <= MaxInt64 {
      AccumulatedSmall(s);
    }
  }

  lemma {:induction false} DecimalValuePrefix(s: string)
    requires AllDigits(s) && s != []
    ensures DecimalValue(s[..|s| - 1]) <= DecimalValue(s)
  {
  }

  /** Without overflow the accumulator is the decimal value. */
  lemma {:induction false} AccumulatedSmall(s: string)
    requires AllDigits(s) && DecimalValue(s) <= MaxInt64
    ensures Accumulated(s) == DecimalValue(s)
    decreases |s|
  {
    if s != [] {
      var p := s[..|s| - 1];
      assert AllDigits(p);
      DecimalValuePrefix(s);
      AccumulatedSmall(p);
    }
  }

  /** "0" and "12a" parse to 0; "200" parses to 200. */
  lemma ParsedIntExamples()
    ensures ParsedInt("0") == 0
    ensures ParsedInt("12a") == 0
    ensures ParsedInt("200") == 200
  {
    assert !IsDigit("12a"[2]);
    assert "200"[..2] == "20" && "20"[..1] == "2" && "2"[..0] == "";
  }

  /** `getEnvOrDefault`: an empty value counts as unset. */
  function GetEnvOrDefault(environ: Environment, key: string, defaultValue: string): (r: string)
    ensures Getenv(environ, key) != "" ==> r == environ[key]
    ensures Getenv(environ, key) == "" ==> r == defaultValue
    ensures r == "" ==> defaultValue == ""
  {
    var v := Getenv(environ, key);
    if v != "" then v else defaultValue
  }

  /** A case-insensitive "true". */
  predicate IsTrue(v: string)
  {
    Lower(v) == "true"
  }

  /** `getEnvBoolOrDefault`. */
  function GetEnvBoolOrDefault(environ: Environment, key: string, defaultValue: bool): (r: bool)
    ensures Getenv(environ, key) == "" ==> r == defaultValue
    ensures Getenv(environ, key) != "" ==> (r <==> IsTrue(environ[key]))
  {
    var v := Getenv(environ, key);
    if v != "" then IsTrue(v) else defaultValue
  }

  /** `getEnvIntOrDefault`: the variable is used only when it parses to a
      positive number. */
  method GetEnvIntOrDefault(environ: Environment, key: string, defaultValue: int) returns (r: int)
    ensures var v := Getenv(environ, key);
      r == if v != "" && ParsedInt(v) > 0 then ParsedInt(v) else defaultValue
    ensures r != defaultValue ==> r > 0
  {
    var value := Getenv(environ, key);
    if value != "" {
      var intValue := ParseIntSafe(value);
      if intValue > 0 {
        return intValue;
      }
    }
    return defaultValue;
  }

  /** "local" and "development" are the console-logging environments. */
  predicate IsLocal(env: string)
  {
    env == "local" || env == "development"
  }

  /** `GetDefault`. */
  function GetDefault(env: string): (c: LogConfig)
    ensures c.env == env
    ensures c.level == (if IsLocal(env) then "debug" else "info")
    ensures c.useJson == !IsLocal(env)
    ensures c.serviceName == "blogger-service" && c.filePath == "logs/app.log" && !c.fileEnabled
    ensures c.fileSize == 100 && c.maxAge == 30 && c.maxBackups == 3
  {
    if IsLocal(env) then
      LogConfig(env, "blogger-service", "debug", false, false, "logs/app.log", 100, 30, 3)
    else
      LogConfig(env, "blogger-service", "info", true, false, "logs/app.log", 100, 30, 3)
  }

  /** An integer variable the loader will take. */
  predicate PositiveIntVar(environ: Environment, key: string)
  {
    key in environ && environ[key] != "" && ParsedInt(environ[key]) > 0
  }

  /** Every `BLOGGER_*` variable is set to a usable value. */
  predicate AllVariablesSet(environ: Environment)
  {
    && Getenv(environ, "BLOGGER_ENV") != ""
    && Getenv(environ, "BLOGGER_SERVICE_NAME") != ""
    && Getenv(environ, "BLOGGER_LOG_LEVEL") != ""
    && Getenv(environ, "BLOGGER_USE_JSON") != ""
    && Getenv(environ, "BLOGGER_FILE_ENABLED") != ""
    && Getenv(environ, "BLOGGER_FILE_PATH") != ""
    && PositiveIntVar(environ, "BLOGGER_FILE_SIZE")
    && PositiveIntVar(environ, "BLOGGER_MAX_AGE")
    && PositiveIntVar(environ, "BLOGGER_MAX_BACKUPS")
  }

  /** `LoadFromEnv`: defaults for the environment named by `BLOGGER_ENV`
      (else "local"), each field overridable by its variable, and then
      console output at debug level forced in a local environment. */
  method LoadFromEnv(environ: Environment) returns (c: LogConfig)
    ensures c.env == GetEnvOrDefault(environ, "BLOGGER_ENV", "local")
    ensures var d := GetDefault(c.env);
      && c.serviceName == GetEnvOrDefault(environ, "BLOGGER_SERVICE_NAME", d.serviceName)
      && c.fileEnabled == GetEnvBoolOrDefault(environ, "BLOGGER_FILE_ENABLED", d.fileEnabled)
      && c.filePath == GetEnvOrDefault(environ, "BLOGGER_FILE_PATH", d.filePath)
    ensures IsLocal(c.env) ==> !c.useJson && c.level == "debug"
    ensures !IsLocal(c.env) ==>
      && c.useJson == GetEnvBoolOrDefault(environ, "BLOGGER_USE_JSON", true)
      && c.level == GetEnvOrDefault(environ, "BLOGGER_LOG_LEVEL", "info")
    ensures c.fileSize > 0 && c.maxAge > 0 && c.maxBackups > 0
    ensures PositiveIntVar(environ, "BLOGGER_FILE_SIZE") ==> c.fileSize == ParsedInt(environ["BLOGGER_FILE_SIZE"])
    ensures !PositiveIntVar(environ, "BLOGGER_FILE_SIZE") ==> c.fileSize == 100
    ensures PositiveIntVar(environ, "BLOGGER_MAX_AGE") ==> c.maxAge == ParsedInt(environ["BLOGGER_MAX_AGE"])
    ensures !PositiveIntVar(environ, "BLOGGER_MAX_AGE") ==> c.maxAge == 30
    ensures PositiveIntVar(environ, "BLOGGER_MAX_BACKUPS") ==> c.maxBackups == ParsedInt(environ["BLOGGER_MAX_BACKUPS"])
    ensures !PositiveIntVar(environ, "BLOGGER_MAX_BACKUPS") ==> c.maxBackups == 3
    ensures AllVariablesSet(environ) && !IsLocal(environ["BLOGGER_ENV"]) ==>
      c == LogConfig(environ["BLOGGER_ENV"], environ["BLOGGER_SERVICE_NAME"], environ["BLOGGER_LOG_LEVEL"],
                     IsTrue(environ["BLOGGER_USE_JSON"]), IsTrue(environ["BLOGGER_FILE_ENABLED"]),
                     environ["BLOGGER_FILE_PATH"], ParsedInt(environ["BLOGGER_FILE_SIZE"]),
                     ParsedInt(environ["BLOGGER_MAX_AGE"]), ParsedInt(environ["BLOGGER_MAX_BACKUPS"]))
  {
    var defaultEnv := GetEnvOrDefault(environ, "BLOGGER_ENV", "local");
    var defaults := GetDefault(defaultEnv);
    var fileSize := GetEnvIntOrDefault(environ, "BLOGGER_FILE_SIZE", defaults.fileSize);
    var maxAge := GetEnvIntOrDefault(environ, "BLOGGER_MAX_AGE", defaults.maxAge);
    var maxBackups := GetEnvIntOrDefault(environ, "BLOGGER_MAX_BACKUPS", defaults.maxBackups);
    c := LogConfig(
      GetEnvOrDefault(environ, "BLOGGER_ENV", defaults.env),
      GetEnvOrDefault(environ, "BLOGGER_SERVICE_NAME", defaults.serviceName),
      GetEnvOrDefault(environ, "BLOGGER_LOG_LEVEL", defaults.level),
      GetEnvBoolOrDefault(environ, "BLOGGER_USE_JSON", defaults.useJson),
      GetEnvBoolOrDefault(environ, "BLOGGER_FILE_ENABLED", defaults.fileEnabled),
      GetEnvOrDefault(environ, "BLOGGER_FILE_PATH", defaults.filePath),
      fileSize, maxAge, maxBackups);
    if c.env == "local" || c.env == "development" {
      c := c.(useJson := false);
      c := c.(level := "debug");
    }
  }

  /** `applyEnvOverrides`: each non-empty variable replaces its field; the
      rotation limits are never touched. */
  method ApplyEnvOverrides(config: LogConfig, environ: Environment) returns (c: LogConfig)
    ensures c.env == GetEnvOrDefault(environ, "BLOGGER_ENV", config.env)
    ensures c.serviceName == GetEnvOrDefault(environ, "BLOGGER_SERVICE_NAME", config.serviceName)
    ensures c.level == GetEnvOrDefault(environ, "BLOGGER_LOG_LEVEL", config.level)
    ensures c.useJson == GetEnvBoolOrDefault(environ, "BLOGGER_USE_JSON", config.useJson)
    ensures c.fileEnabled == GetEnvBoolOrDefault(environ, "BLOGGER_FILE_ENABLED", config.fileEnabled)
    ensures c.filePath == GetEnvOrDefault(environ, "BLOGGER_FILE_PATH", config.filePath)
    ensures c.fileSize == config.fileSize && c.maxAge == config.maxAge && c.maxBackups == config.maxBackups
  {
    var env, serviceName, level := config.env, config.serviceName, config.level;
    var useJson, fileEnabled, filePath := config.useJson, config.fileEnabled, config.filePath;
    var v := Getenv(environ, "BLOGGER_ENV");
    if v != "" {
      env := v;
    }
    assert env == GetEnvOrDefault(environ, "BLOGGER_ENV", config.env);
    v := Getenv(environ, "BLOGGER_SERVICE_NAME");
    if v != "" {
      serviceName := v;
    }
    assert serviceName == GetEnvOrDefault(environ, "BLOGGER_SERVICE_NAME", config.serviceName);
    v := Getenv(environ, "BLOGGER_LOG_LEVEL");
    if v != "" {
      level := v;
    }
    assert level == GetEnvOrDefault(environ, "BLOGGER_LOG_LEVEL", config.level);
    v := Getenv(environ, "BLOGGER_USE_JSON");
    if v != "" {
      useJson := Lower(v) == "true";
    }
    assert useJson == GetEnvBoolOrDefault(environ, "BLOGGER_USE_JSON", config.useJson);
    v := Getenv(environ, "BLOGGER_FILE_ENABLED");
    if v != "" {
      fileEnabled := Lower(v) == "true";
    }
    assert fileEnabled == GetEnvBoolOrDefault(environ, "BLOGGER_FILE_ENABLED", config.fileEnabled);
    v := Getenv(environ, "BLOGGER_FILE_PATH");
    if v != "" {
      filePath := v;
    }
    assert filePath == GetEnvOrDefault(environ, "BLOGGER_FILE_PATH", config.filePath);
    c := config.(env := env, serviceName := serviceName, level := level,
                 useJson := useJson, fileEnabled := fileEnabled, filePath := filePath);
  }

  /** With no variable set the overrides change nothing. */
  lemma NoVariablesNoOverride(config: LogConfig, environ: Environment)
    requires forall k :: k in environ ==> environ[k] == ""
    ensures GetEnvOrDefault(environ, "BLOGGER_ENV", config.env) == config.env
    ensures GetEnvOrDefault(environ, "BLOGGER_SERVICE_NAME", config.serviceName) == config.serviceName
    ensures GetEnvOrDefault(environ, "BLOGGER_LOG_LEVEL", config.level) == config.level
    ensures GetEnvBoolOrDefault(environ, "BLOGGER_USE_JSON", config.useJson) == config.useJson
    ensures GetEnvBoolOrDefault(environ, "BLOGGER_FILE_ENABLED", config.fileEnabled) == config.fileEnabled
    ensures GetEnvOrDefault(environ, "BLOGGER_FILE_PATH", config.filePath) == config.filePath
  {
  }

  /** `LoadFromFile`: reading the file and decoding the YAML are inputs; a
      failure of either is reported with its prefix, otherwise the decoded
      `log` section goes through the environment overrides. */
  method LoadFromFile(read: Result<string, string>, unmarshal: string -> Result<LogConfig, string>,
                      environ: Environment)
    returns (r: Result<LogConfig, string>)
    ensures read.Err? ==> r == Err("failed to read config file: " + read.error)
    ensures read.Ok? && unmarshal(read.value).Err? ==>
      r == Err("failed to unmarshal config: " + unmarshal(read.value).error)
    ensures read.Ok? && unmarshal(read.value).Ok? ==>
      r.Ok? && var base := unmarshal(read.value).value;
      && r.value.env == GetEnvOrDefault(environ, "BLOGGER_ENV", base.env)
      && r.value.level == GetEnvOrDefault(environ, "BLOGGER_LOG_LEVEL", base.level)
      && r.value.serviceName == GetEnvOrDefault(environ, "BLOGGER_SERVICE_NAME", base.serviceName)
      && r.value.useJson == GetEnvBoolOrDefault(environ, "BLOGGER_USE_JSON", base.useJson)
      && r.value.fileEnabled == GetEnvBoolOrDefault(environ, "BLOGGER_FILE_ENABLED", base.fileEnabled)
      && r.value.filePath == GetEnvOrDefault(environ, "BLOGGER_FILE_PATH", base.filePath)
      && r.value.fileSize == base.fileSize && r.value.maxAge == base.maxAge && r.value.maxBackups == base.maxBackups
  {
    if read.Err? {
      return Err("failed to read config file: " + read.error);
    }
    var decoded := unmarshal(read.value);
    if decoded.Err? {
      return Err("failed to unmarshal config: " + decoded.error);
    }
    var c := ApplyEnvOverrides(decoded.value, environ);
    return Ok(c);
  }
}
