/**
 * The server's configuration (`flags.Parse`): every field is coalesced
 * from the environment, the command line, a JSON file and a default, in
 * that order. Reading the environment, the flag set and the file are
 * inputs given as values.
 */
module ServerFlags {
  import opened Wrappers
  import opened Int64
  import opened Coalesce

  const DefaultConfigPath: string := ""
  const DefaultServerAddress: string := "localhost:8080"
  const DefaultStoreIntervalSec: int64 := 300
  const DefaultFileStoragePath: string := ""
  const DefaultRestore: bool := true
  const DefaultDatabaseDSN: string := ""
  const DefaultKey: string := ""
  const DefaultCryptoPath: string := ""

  /**
   * The environment as `env.Parse` fills it: an unset variable reads as
   * the zero value. `restore` is None when RESTORE is not set at all, as
   * `os.LookupEnv` reports.
   */
  datatype EnvConfig = EnvConfig(
    configPath: string, serverAddress: string, storeInterval: int64, fileStoragePath: string,
    restore: Option<bool>, databaseDSN: string, key: string, cryptoPath: string)

  /** The command line: None for a flag that was not passed, which then holds its default. */
  datatype Args = Args(
    i: Option<int64>, a: Option<string>, f: Option<string>, r: Option<bool>,
    d: Option<string>, k: Option<string>, cryptoKey: Option<string>, c: Option<string>)

  /** The JSON file's fields; a field missing from the file reads as zero. */
  datatype JsonConfig = JsonConfig(
    serverAddress: string, storeInterval: int64, fileStoragePath: string, restore: bool,
    databaseDSN: string, cryptoPath: string)

  const EmptyJson: JsonConfig := JsonConfig("", 0, "", false, "", "")

  /** The result; `storeInterval` is a `time.Duration` in nanoseconds. */
  datatype Config = Config(
    serverAddress: string, storeInterval: int64, fileStoragePath: string, restore: bool,
    databaseDSN: string, key: string, cryptoPath: string)

  const Second: int64 := 1_000_000_000

  /** `time.Duration(n) * time.Second`, an int64 product that wraps. */
  function Duration(n: int64): int64 {
    Wrap(n as int * Second as int)
  }

  /** The largest count of seconds whose duration does not wrap. */
  const MaxSeconds: int64 := 9_223_372_036

  /** The file read: the CONFIG path overrides `-c`; a file that cannot be read or decoded counts as empty. */
  function ConfigPath(env: EnvConfig, args: Args): string {
    if env.configPath != "" then env.configPath else args.c.GetOr(DefaultConfigPath)
  }

  function JsonUsed(env: EnvConfig, args: Args, load: string -> Option<JsonConfig>): JsonConfig {
    var path := ConfigPath(env, args);
    if path != "" && load(path).Some? then load(path).value else EmptyJson
  }

  /** `lookupBoolEnv("RESTORE", v)`. */
  function RestoreEnv(env: EnvConfig): bool {
    if env.restore.Some? then env.restore.value else false
  }

  /** `flagIsPassed("r", *restore)`. */
  function RestoreFlag(args: Args): bool {
    if args.r.Some? then args.r.value else false
  }

  function StoreIntervalSeconds(env: EnvConfig, args: Args, json: JsonConfig): int64 {
    FirstPositive([env.storeInterval, args.i.GetOr(DefaultStoreIntervalSec), json.storeInterval, DefaultStoreIntervalSec])
  }

  /** The configuration `Parse` returns. */
  function ParseConfig(env: EnvConfig, args: Args, load: string -> Option<JsonConfig>): Config {
    var json := JsonUsed(env, args, load);
    Config(
      FirstNonEmpty([env.serverAddress, args.a.GetOr(DefaultServerAddress), json.serverAddress, DefaultServerAddress]),
      Duration(StoreIntervalSeconds(env, args, json)),
      FirstNonEmpty([env.fileStoragePath, args.f.GetOr(DefaultFileStoragePath), json.fileStoragePath, DefaultFileStoragePath]),
      FirstBool([RestoreEnv(env), RestoreFlag(args), json.restore, DefaultRestore]),
      FirstNonEmpty([env.databaseDSN, args.d.GetOr(DefaultDatabaseDSN), json.databaseDSN, DefaultDatabaseDSN]),
      FirstNonEmpty([env.key, args.k.GetOr(DefaultKey), DefaultKey, DefaultKey]),
      FirstNonEmpty([env.cryptoPath, args.cryptoKey.GetOr(DefaultCryptoPath), json.cryptoPath, DefaultCryptoPath]))
  }

  /** `Parse`, with the `-c` value reassigned from CONFIG before the file is read. */
  method Parse(env: EnvConfig, args: Args, load: string -> Option<JsonConfig>) returns (c: Config)
    ensures c == ParseConfig(env, args, load)
  {
    var configPath := args.c.GetOr(DefaultConfigPath);
    var json := EmptyJson;
    if env.configPath != "" {
      configPath := env.configPath;
    }
    if configPath != "" {
      var cfg := load(configPath);
      if cfg.Some? {
        json := cfg.value;
      }
    }
    var address := CoalesceString([env.serverAddress, args.a.GetOr(DefaultServerAddress), json.serverAddress, DefaultServerAddress]);
    var interval := CoalesceInt([env.storeInterval, args.i.GetOr(DefaultStoreIntervalSec), json.storeInterval, DefaultStoreIntervalSec]);
    var path := CoalesceString([env.fileStoragePath, args.f.GetOr(DefaultFileStoragePath), json.fileStoragePath, DefaultFileStoragePath]);
    var restore := CoalesceBool([RestoreEnv(env), RestoreFlag(args), json.restore, DefaultRestore]);
    var dsn := CoalesceString([env.databaseDSN, args.d.GetOr(DefaultDatabaseDSN), json.databaseDSN, DefaultDatabaseDSN]);
    var key := CoalesceString([env.key, args.k.GetOr(DefaultKey), DefaultKey, DefaultKey]);
    var crypto := CoalesceString([env.cryptoPath, args.cryptoKey.GetOr(DefaultCryptoPath), json.cryptoPath, DefaultCryptoPath]);
    c := Config(address, Duration(interval), path, restore, dsn, key, crypto);
  }

  /** Restore is the RESTORE value when that is set and false otherwise; `-r`, the file and the default `true` never count. */
  lemma RestoreOnlyFromEnv(env: EnvConfig, args: Args, load: string -> Option<JsonConfig>)
    ensures ParseConfig(env, args, load).restore == (env.restore == Some(true))
  {
  }

  /**
   * The store interval is a positive number of seconds: zero or negative
   * values from any source are passed over and the default is 300. Its
   * duration is at least one second unless the chosen count exceeds
   * `MaxSeconds`, where the nanosecond product wraps.
   */
  lemma StoreIntervalPositive(env: EnvConfig, args: Args, load: string -> Option<JsonConfig>)
    ensures var n := StoreIntervalSeconds(env, args, JsonUsed(env, args, load));
      && n >= 1
      && (n <= MaxSeconds ==> ParseConfig(env, args, load).storeInterval >= Second)
  {
    var json := JsonUsed(env, args, load);
    var vs := [env.storeInterval, args.i.GetOr(DefaultStoreIntervalSec), json.storeInterval];
    assert vs + [DefaultStoreIntervalSec] == [env.storeInterval, args.i.GetOr(DefaultStoreIntervalSec), json.storeInterval, DefaultStoreIntervalSec];
    FirstPositiveWithDefault(vs, DefaultStoreIntervalSec);
  }

  /** With nothing set anywhere the interval is the default 300 s. */
  lemma StoreIntervalDefault(env: EnvConfig, load: string -> Option<JsonConfig>)
    requires env.storeInterval == 0 && env.configPath == ""
    ensures ParseConfig(env, Args(None, None, None, None, None, None, None, None), load).storeInterval == 300 * Second
  {
    FirstPositiveAt([0, DefaultStoreIntervalSec, 0, DefaultStoreIntervalSec], 1);
  }

  /** An interval just past `MaxSeconds` wraps to a negative duration. */
  lemma StoreIntervalWraps(env: EnvConfig, args: Args, load: string -> Option<JsonConfig>)
    requires env.storeInterval == MaxSeconds + 1
    ensures ParseConfig(env, args, load).storeInterval < 0
  {
    var json := JsonUsed(env, args, load);
    FirstPositiveAt([env.storeInterval, args.i.GetOr(DefaultStoreIntervalSec), json.storeInterval, DefaultStoreIntervalSec], 0);
    assert Duration(MaxSeconds + 1) == -9_223_372_036_709_551_616;
  }

  /** The key comes from KEY, else from `-k`, else is empty; the file is never consulted. */
  lemma KeyNeverFromJson(env: EnvConfig, args: Args, load1: string -> Option<JsonConfig>, load2: string -> Option<JsonConfig>)
    ensures ParseConfig(env, args, load1).key == (if env.key != "" then env.key else args.k.GetOr(""))
    ensures ParseConfig(env, args, load1).key == ParseConfig(env, args, load2).key
  {
    var vs := [env.key, args.k.GetOr(DefaultKey), DefaultKey, DefaultKey];
    if env.key != "" {
      FirstNonEmptyAt(vs, 0);
    } else if args.k.GetOr("") != "" {
      FirstNonEmptyAt(vs, 1);
    } else {
      FirstNonEmptyEmpty(vs);
    }
  }

  /** With CONFIG set, `-c` makes no difference. */
  lemma ConfigEnvOverridesFlag(env: EnvConfig, args: Args, c: Option<string>, load: string -> Option<JsonConfig>)
    requires env.configPath != ""
    ensures ParseConfig(env, args.(c := c), load) == ParseConfig(env, args, load)
  {
  }

  /** A file that cannot be read or decoded gives the configuration of no file at all. */
  lemma BadFileIsEmpty(env: EnvConfig, args: Args, load: string -> Option<JsonConfig>)
    requires load(ConfigPath(env, args)).None?
    ensures ParseConfig(env, args, load) == ParseConfig(env, args, (p: string) => None)
  {
  }

  /** The file's address is shadowed by `-a`'s non-empty default: it counts only when ADDRESS is unset and `-a ""` is passed. */
  lemma AddressShadowsJson(env: EnvConfig, args: Args, load: string -> Option<JsonConfig>)
    requires env.serverAddress == ""
    ensures args.a.None? ==> ParseConfig(env, args, load).serverAddress == DefaultServerAddress
    ensures args.a == Some("") && JsonUsed(env, args, load).serverAddress != "" ==>
      ParseConfig(env, args, load).serverAddress == JsonUsed(env, args, load).serverAddress
  {
    var json := JsonUsed(env, args, load);
    var vs := [env.serverAddress, args.a.GetOr(DefaultServerAddress), json.serverAddress, DefaultServerAddress];
    if args.a.None? {
      FirstNonEmptyAt(vs, 1);
    } else if args.a == Some("") && json.serverAddress != "" {
      FirstNonEmptyAt(vs, 2);
    }
  }
}
