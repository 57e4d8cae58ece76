/**
 * The agent's configuration (`flags.GetFlags`): the same coalescing as
 * the server's, over the agent's fields. Here the key and the rate limit
 * are also read from the JSON file.
 */
module AgentFlags {
  import opened Wrappers
  import opened Int64
  import opened Coalesce

  const DefaultConfigPath: string := ""
  const DefaultServerAddress: string := "localhost:8080"
  const DefaultReportInterval: int64 := 10
  const DefaultPollInterval: int64 := 2
  const DefaultKey: string := ""
  const DefaultRateLimit: int64 := 3
  const DefaultCryptoPath: string := ""

  /** The environment as `env.Parse` fills it; an unset variable reads as the zero value. */
  datatype EnvConfig = EnvConfig(
    configPath: string, serverAddress: string, reportInterval: int64, pollInterval: int64,
    key: string, rateLimit: int64, cryptoPath: string)

  /** The command line: None for a flag that was not passed, which then holds its default. */
  datatype Args = Args(
    a: Option<string>, r: Option<int64>, p: Option<int64>, k: Option<string>,
    l: Option<int64>, cryptoKey: Option<string>, c: Option<string>)

  /** The JSON file's fields; a field missing from the file reads as zero. */
  datatype JsonConfig = JsonConfig(
    serverAddress: string, reportInterval: int64, pollInterval: int64, key: string,
    rateLimit: int64, cryptoPath: string)

  const EmptyJson: JsonConfig := JsonConfig("", 0, 0, "", 0, "")

  /** The result; the two intervals are `time.Duration`s in nanoseconds. */
  datatype Flags = Flags(
    serverAddress: string, pollInterval: int64, reportInterval: int64, key: string,
    rateLimit: int64, cryptoPath: string)

  const Second: int64 := 1_000_000_000

  /** `time.Duration(n) * time.Second`, an int64 product that wraps. */
  function Duration(n: int64): int64 {
    Wrap(n as int * Second as int)
  }

  /** The largest count of seconds whose duration does not wrap. */
  const MaxSeconds: int64 := 9_223_372_036

  /** The file read: the CONFIG path overrides `-c`. */
  function ConfigPath(env: EnvConfig, args: Args): string {
    if env.configPath != "" then env.configPath else args.c.GetOr(DefaultConfigPath)
  }

  /** A file that cannot be read or decoded counts as empty. */
  function JsonUsed(env: EnvConfig, args: Args, load: string -> Option<JsonConfig>): JsonConfig {
    var path := ConfigPath(env, args);
    if path != "" && load(path).Some? then load(path).value else EmptyJson
  }

  function ReportSeconds(env: EnvConfig, args: Args, json: JsonConfig): int64 {
    FirstPositive([env.reportInterval, args.r.GetOr(DefaultReportInterval), json.reportInterval, DefaultReportInterval])
  }

  function PollSeconds(env: EnvConfig, args: Args, json: JsonConfig): int64 {
    FirstPositive([env.pollInterval, args.p.GetOr(DefaultPollInterval), json.pollInterval, DefaultPollInterval])
  }

  /** The flags `GetFlags` returns. */
  function FlagsOf(env: EnvConfig, args: Args, load: string -> Option<JsonConfig>): Flags {
    var json := JsonUsed(env, args, load);
    Flags(
      FirstNonEmpty([env.serverAddress, args.a.GetOr(DefaultServerAddress), json.serverAddress, DefaultServerAddress]),
      Duration(PollSeconds(env, args, json)),
      Duration(ReportSeconds(env, args, json)),
      FirstNonEmpty([env.key, args.k.GetOr(DefaultKey), json.key, DefaultKey]),
      FirstPositive([env.rateLimit, args.l.GetOr(DefaultRateLimit), json.rateLimit, DefaultRateLimit]),
      FirstNonEmpty([env.cryptoPath, args.cryptoKey.GetOr(DefaultCryptoPath), json.cryptoPath, DefaultCryptoPath]))
  }

  /** `GetFlags`, with the `-c` value reassigned from CONFIG before the file is read. */
  method GetFlags(env: EnvConfig, args: Args, load: string -> Option<JsonConfig>) returns (f: Flags)
    ensures f == FlagsOf(env, args, load)
  {
    var configPath := args.c.GetOr(DefaultConfigPath);
    var json := EmptyJson;
    if env.configPath != "" {
      configPath := env.configPath;
    }
    if configPath != "" {
      var cfg := load(configPath);
      if cfg.Some? {
        json := cfg.value;
      }
    }
    var address := CoalesceString([env.serverAddress, args.a.GetOr(DefaultServerAddress), json.serverAddress, DefaultServerAddress]);
    var report := CoalesceInt([env.reportInterval, args.r.GetOr(DefaultReportInterval), json.reportInterval, DefaultReportInterval]);
    var poll := CoalesceInt([env.pollInterval, args.p.GetOr(DefaultPollInterval), json.pollInterval, DefaultPollInterval]);
    var key := CoalesceString([env.key, args.k.GetOr(DefaultKey), json.key, DefaultKey]);
    var rate := CoalesceInt([env.rateLimit, args.l.GetOr(DefaultRateLimit), json.rateLimit, DefaultRateLimit]);
    var crypto := CoalesceString([env.cryptoPath, args.cryptoKey.GetOr(DefaultCryptoPath), json.cryptoPath, DefaultCryptoPath]);
    f := Flags(address, Duration(poll), Duration(report), key, rate, crypto);
  }

  /** At least one worker is started: non-positive limits from any source are passed over and the default is 3. */
  lemma RateLimitPositive(env: EnvConfig, args: Args, load: string -> Option<JsonConfig>)
    ensures FlagsOf(env, args, load).rateLimit >= 1
  {
    var json := JsonUsed(env, args, load);
    var vs := [env.rateLimit, args.l.GetOr(DefaultRateLimit), json.rateLimit];
    assert vs + [DefaultRateLimit] == [env.rateLimit, args.l.GetOr(DefaultRateLimit), json.rateLimit, DefaultRateLimit];
    FirstPositiveWithDefault(vs, DefaultRateLimit);
  }

  /** Both intervals are positive second counts, and at least a second long unless the count exceeds `MaxSeconds`. */
  lemma IntervalsPositive(env: EnvConfig, args: Args, load: string -> Option<JsonConfig>)
    ensures var json := JsonUsed(env, args, load);
      && ReportSeconds(env, args, json) >= 1 && PollSeconds(env, args, json) >= 1
      && (ReportSeconds(env, args, json) <= MaxSeconds ==> FlagsOf(env, args, load).reportInterval >= Second)
      && (PollSeconds(env, args, json) <= MaxSeconds ==> FlagsOf(env, args, load).pollInterval >= Second)
  {
    var json := JsonUsed(env, args, load);
    var rs := [env.reportInterval, args.r.GetOr(DefaultReportInterval), json.reportInterval];
    assert rs + [DefaultReportInterval] == [env.reportInterval, args.r.GetOr(DefaultReportInterval), json.reportInterval, DefaultReportInterval];
    FirstPositiveWithDefault(rs, DefaultReportInterval);
    var ps := [env.pollInterval, args.p.GetOr(DefaultPollInterval), json.pollInterval];
    assert ps + [DefaultPollInterval] == [env.pollInterval, args.p.GetOr(DefaultPollInterval), json.pollInterval, DefaultPollInterval];
    FirstPositiveWithDefault(ps, DefaultPollInterval);
  }

  /** With nothing set anywhere, the agent polls every 2 s, reports every 10 s and runs 3 workers. */
  lemma Defaults(env: EnvConfig, load: string -> Option<JsonConfig>)
    requires env.reportInterval == 0 && env.pollInterval == 0 && env.rateLimit == 0 && env.configPath == ""
    ensures var f := FlagsOf(env, Args(None, None, None, None, None, None, None), load);
      f.pollInterval == 2 * Second && f.reportInterval == 10 * Second && f.rateLimit == 3
  {
    FirstPositiveAt([0, DefaultReportInterval, 0, DefaultReportInterval], 1);
    FirstPositiveAt([0, DefaultPollInterval, 0, DefaultPollInterval], 1);
    FirstPositiveAt([0, DefaultRateLimit, 0, DefaultRateLimit], 1);
  }

  /** Unlike the server, the agent takes its key from the file when KEY and `-k` are empty. */
  lemma KeyFromJson(env: EnvConfig, args: Args, load: string -> Option<JsonConfig>)
    requires env.key == "" && args.k.GetOr("") == ""
    ensures FlagsOf(env, args, load).key == JsonUsed(env, args, load).key
  {
    var json := JsonUsed(env, args, load);
    var vs := [env.key, args.k.GetOr(DefaultKey), json.key, DefaultKey];
    if json.key != "" {
      FirstNonEmptyAt(vs, 2);
    } else {
      FirstNonEmptyEmpty(vs);
    }
  }

  /** The file's address is shadowed by `-a`'s non-empty default: it counts only when ADDRESS is unset and `-a ""` is passed. */
  lemma AddressShadowsJson(env: EnvConfig, args: Args, load: string -> Option<JsonConfig>)
    requires env.serverAddress == ""
    ensures args.a.None? ==> FlagsOf(env, args, load).serverAddress == DefaultServerAddress
    ensures args.a == Some("") && JsonUsed(env, args, load).serverAddress != "" ==>
      FlagsOf(env, args, load).serverAddress == JsonUsed(env, args, load).serverAddress
  {
    var json := JsonUsed(env, args, load);
    var vs := [env.serverAddress, args.a.GetOr(DefaultServerAddress), json.serverAddress, DefaultServerAddress];
    if args.a.None? {
      FirstNonEmptyAt(vs, 1);
    } else if args.a == Some("") && json.serverAddress != "" {
      FirstNonEmptyAt(vs, 2);
    }
  }

  /** With CONFIG set, `-c` makes no difference. */
  lemma ConfigEnvOverridesFlag(env: EnvConfig, args: Args, c: Option<string>, load: string -> Option<JsonConfig>)
    requires env.configPath != ""
    ensures FlagsOf(env, args.(c := c), load) == FlagsOf(env, args, load)
  {
  }

  /** A file that cannot be read or decoded gives the flags of no file at all. */
  lemma BadFileIsEmpty(env: EnvConfig, args: Args, load: string -> Option<JsonConfig>)
    requires load(ConfigPath(env, args)).None?
    ensures FlagsOf(env, args, load) == FlagsOf(env, args, (p: string) => None)
  {
  }
}
