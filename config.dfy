/**
 * backend/internal/config/config.go: configuration read from the process
 * environment (here a map from variable name to value), its validation and the
 * database connection string.
 */
module Config {
  import opened Wrappers
  import Utils

  /** The process environment; a variable absent from the map is unset. */
  type Env = map<string, string>

  /** A `time.Duration`, in nanoseconds. */
  type Duration = int

  const Second: Duration := 1_000_000_000

  datatype ServerConfig = ServerConfig(
    port: string, environment: string, readTimeout: Duration, writeTimeout: Duration, host: string)

  datatype DatabaseConfig = DatabaseConfig(
    host: string, port: string, user: string, password: string, dbName: string, sslMode: string,
    maxConns: int, maxIdle: int)

  datatype AwsConfig = AwsConfig(
    region: string, accessKeyId: string, secretAccessKey: string, s3Bucket: string, s3Region: string)

  datatype RedisConfig = RedisConfig(url: string, password: string, db: int)

  datatype LoggerConfig = LoggerConfig(level: string, format: string)

  datatype Config = Config(
    server: ServerConfig, database: DatabaseConfig, aws: AwsConfig, redis: RedisConfig, logger: LoggerConfig)

  const ValidEnvironments: set<string> := {"development", "staging", "production", "test"}

  /**
   * `Validate()`: None when the configuration is usable, otherwise the message
   * of the first failed check, in the order database password, AWS
   * credentials, environment name.
   */
  function Validate(c: Config): (r: Option<string>)
    ensures c.database.password == "" ==> r == Some("database password is required")
    ensures c.database.password != "" && (c.aws.accessKeyId == "" || c.aws.secretAccessKey == "") ==>
      r == Some("AWS credentials are required")
    ensures (c.database.password != "" && c.aws.accessKeyId != "" && c.aws.secretAccessKey != "" &&
             c.server.environment !in ValidEnvironments) ==>
      r == Some("invalid environment: " + c.server.environment)
    ensures r == None <==>
      c.database.password != "" && c.aws.accessKeyId != "" && c.aws.secretAccessKey != "" &&
      c.server.environment in ValidEnvironments
  {
    if c.database.password == "" then Some("database password is required")
    else if c.aws.accessKeyId == "" || c.aws.secretAccessKey == "" then Some("AWS credentials are required")
    else if c.server.environment !in ValidEnvironments then Some("invalid environment: " + c.server.environment)
    else None
  }

  function IsDevelopment(c: Config): bool {
    c.server.environment == "development"
  }

  function IsProduction(c: Config): bool {
    c.server.environment == "production"
  }

  /** A configuration is never both development and production, and a valid one that is either has passed the environment check. */
  lemma EnvironmentFlags(c: Config)
    ensures !(IsDevelopment(c) && IsProduction(c))
    ensures IsDevelopment(c) || IsProduction(c) ==> c.server.environment in ValidEnvironments
  {
  }

  /** The six key=value settings of the connection string, in order. */
  function DsnFields(c: Config): seq<string> {
    var d := c.database;
    ["host=" + d.host, "port=" + d.port, "user=" + d.user, "password=" + d.password,
     "dbname=" + d.dbName, "sslmode=" + d.sslMode]
  }

  /** `GetDSN()`: the libpq connection string, the key=value settings separated by single spaces. */
  function GetDSN(c: Config): string {
    JoinSpaces(DsnFields(c))
  }

  /** `strings.Join(parts, " ")`. */
  function JoinSpaces(parts: seq<string>): string
    requires |parts| >= 1
  {
    if |parts| == 1 then parts[0] else parts[0] + " " + JoinSpaces(parts[1..])
  }

  /** `strings.Split(s, " ")`. */
  function SplitSpaces(s: string): (parts: seq<string>)
    ensures |parts| >= 1
    decreases |s|
  {
    if ' ' !in s then [s]
    else
      var i := FirstSpace(s);
      [s[..i]] + SplitSpaces(s[i + 1..])
  }

  function FirstSpace(s: string): (i: nat)
    requires ' ' in s
    ensures i < |s| && s[i] == ' ' && ' ' !in s[..i]
  {
    if s[0] == ' ' then 0 else 1 + FirstSpace(s[1..])
  }

  lemma SplitFirst(a: string, b: string)
    requires ' ' !in a
    ensures SplitSpaces(a + " " + b) == [a] + SplitSpaces(b)
  {
    var s := a + " " + b;
    assert s[..|a|] == a && s[|a|] == ' ';
    var i := FirstSpace(s);
    forall j | 0 <= j < |a|
      ensures s[j] != ' '
    {
      assert s[j] == a[j];
    }
    assert s[..i] == a && s[i + 1..] == b;
  }

  /** Splitting a space-joined list whose parts hold no space gives the parts back. */
  lemma {:induction false} SplitJoin(parts: seq<string>)
    requires |parts| >= 1
    requires forall k :: 0 <= k < |parts| ==> ' ' !in parts[k]
    ensures SplitSpaces(JoinSpaces(parts)) == parts
  {
    if |parts| > 1 {
      var rest := parts[1..];
      assert forall k :: 0 <= k < |rest| ==> rest[k] == parts[k + 1];
      SplitJoin(rest);
      assert JoinSpaces(parts) == parts[0] + " " + JoinSpaces(rest);
      SplitFirst(parts[0], JoinSpaces(rest));
      assert parts == [parts[0]] + rest;
    }
  }

  /**
   * When no field value contains a space, splitting the DSN at spaces gives
   * back the six settings in the order host, port, user, password, dbname,
   * sslmode, each as key=value.
   */
  lemma GetDSNFields(c: Config)
    requires var d := c.database;
      ' ' !in d.host && ' ' !in d.port && ' ' !in d.user && ' ' !in d.password &&
      ' ' !in d.dbName && ' ' !in d.sslMode
    ensures var d := c.database;
      SplitSpaces(GetDSN(c)) == ["host=" + d.host, "port=" + d.port, "user=" + d.user,
                                 "password=" + d.password, "dbname=" + d.dbName, "sslmode=" + d.sslMode]
  {
    SplitJoin(DsnFields(c));
  }

  /** `os.Getenv(key)`: the empty string for an unset variable. */
  function Getenv(env: Env, key: string): string {
    if key in env then env[key] else ""
  }

  /** `getEnv(key, default)`: the default exactly when the variable is unset or empty. */
  function GetEnv(env: Env, key: string, default: string): (r: string)
    ensures key !in env || env[key] == "" ==> r == default
    ensures key in env && env[key] != "" ==> r == env[key]
  {
    var value := Getenv(env, key);
    if value != "" then value else default
  }

  /** `getIntEnv(key, default)`: the parsed value, or the default when unset, empty or not an int. */
  function GetIntEnv(env: Env, key: string, default: int): (r: int)
    ensures Getenv(env, key) == "" || Utils.Atoi(env[key]) == None ==> r == default
    ensures Getenv(env, key) != "" && Utils.Atoi(env[key]) != None ==> r == Utils.Atoi(env[key]).value
  {
    var value := Getenv(env, key);
    if value != "" && Utils.Atoi(value) != None then Utils.Atoi(value).value else default
  }

  /**
   * `getDurationEnv(key, default)`.  `time.ParseDuration` is not modelled: it is
   * the parameter `parseDuration` (None for a syntax error).
   */
  function GetDurationEnv(env: Env, key: string, default: Duration, parseDuration: string -> Option<Duration>): (r: Duration)
    ensures Getenv(env, key) == "" || parseDuration(env[key]) == None ==> r == default
    ensures Getenv(env, key) != "" && parseDuration(env[key]) != None ==> r == parseDuration(env[key]).value
  {
    var value := Getenv(env, key);
    if value != "" && parseDuration(value) != None then parseDuration(value).value else default
  }

  /** The configuration Load builds from the environment, before validation. */
  function FromEnv(env: Env, parseDuration: string -> Option<Duration>): Config {
    Config(
      ServerConfig(
        GetEnv(env, "SERVER_PORT", "8000"),
        GetEnv(env, "SERVER_ENVIRONMENT", "development"),
        GetDurationEnv(env, "SERVER_READ_TIMEOUT", 15 * Second, parseDuration),
        GetDurationEnv(env, "SERVER_WRITE_TIMEOUT", 15 * Second, parseDuration),
        GetEnv(env, "SERVER_HOST", "0.0.0.0")),
      DatabaseConfig(
        GetEnv(env, "DB_HOST", "localhost"),
        GetEnv(env, "DB_PORT", "5432"),
        GetEnv(env, "DB_USER", "postgres"),
        GetEnv(env, "DB_PASSWORD", ""),
        GetEnv(env, "DB_NAME", "restaurant_menu"),
        GetEnv(env, "DB_SSL_MODE", "disable"),
        GetIntEnv(env, "DB_MAX_CONNS", 25),
        GetIntEnv(env, "DB_MAX_IDLE", 5)),
      AwsConfig(
        GetEnv(env, "AWS_REGION", "us-east-1"),
        GetEnv(env, "AWS_ACCESS_KEY_ID", ""),
        GetEnv(env, "AWS_SECRET_ACCESS_KEY", ""),
        GetEnv(env, "S3_BUCKET", "restaurant-menu-images"),
        GetEnv(env, "S3_REGION", "us-east-1")),
      RedisConfig(
        GetEnv(env, "REDIS_URL", "redis://localhost:6379"),
        GetEnv(env, "REDIS_PASSWORD", ""),
        GetIntEnv(env, "REDIS_DB", 0)),
      LoggerConfig(
        GetEnv(env, "LOG_LEVEL", "info"),
        GetEnv(env, "LOG_FORMAT", "json")))
  }

  datatype LoadResult = Loaded(config: Config) | LoadFailed(message: string)

  /** `Load()`, after the optional .env file has been merged into the environment. */
  function Load(env: Env, parseDuration: string -> Option<Duration>): LoadResult {
    var cfg := FromEnv(env, parseDuration);
    match Validate(cfg)
    case Some(msg) => LoadFailed("invalid configuration: " + msg)
    case None => Loaded(cfg)
  }

  /** A set, non-empty variable. */
  predicate IsSet(env: Env, key: string) {
    key in env && env[key] != ""
  }

  /**
   * Loading succeeds exactly when DB_PASSWORD, AWS_ACCESS_KEY_ID and
   * AWS_SECRET_ACCESS_KEY are set and SERVER_ENVIRONMENT is unset (the default
   * is development) or names one of the four environments.
   */
  lemma LoadSucceedsIff(env: Env, parseDuration: string -> Option<Duration>)
    ensures Load(env, parseDuration).Loaded? <==>
      IsSet(env, "DB_PASSWORD") && IsSet(env, "AWS_ACCESS_KEY_ID") && IsSet(env, "AWS_SECRET_ACCESS_KEY") &&
      (!IsSet(env, "SERVER_ENVIRONMENT") || env["SERVER_ENVIRONMENT"] in ValidEnvironments)
  {
    var cfg := FromEnv(env, parseDuration);
    assert cfg.database.password == GetEnv(env, "DB_PASSWORD", "");
    assert cfg.server.environment == GetEnv(env, "SERVER_ENVIRONMENT", "development");
  }
}
