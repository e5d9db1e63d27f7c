/** The frp adapter's settings: validation and the defaults its constructor applies. */
module FrpConfig {
  import opened Backoff

  datatype Config = Config(
    frpcPath: string,
    configPath: string,
    restartDelay: Duration,
    maxRestartDelay: Duration,
    maxRetries: int)

  datatype ConfigError = NoFrpcPath | NoConfigPath | NegativeDelay | NegativeCap | NegativeRetries

  datatype Checked = Accepted | Rejected(error: ConfigError)

  /** Config.Validate: the first violated demand, in source order. */
  function Validate(c: Config): Checked {
    if c.frpcPath == "" then Rejected(NoFrpcPath)
    else if c.configPath == "" then Rejected(NoConfigPath)
    else if c.restartDelay < 0 then Rejected(NegativeDelay)
    else if c.maxRestartDelay < 0 then Rejected(NegativeCap)
    else if c.maxRetries < 0 then Rejected(NegativeRetries)
    else Accepted
  }

  /** New: a zero stands for the default. */
  function WithDefaults(c: Config): Config {
    c.(restartDelay := if c.restartDelay == 0 then SECOND else c.restartDelay,
       maxRestartDelay := if c.maxRestartDelay == 0 then 300 * SECOND else c.maxRestartDelay,
       maxRetries := if c.maxRetries == 0 then 10 else c.maxRetries)
  }

  /** What is rejected, and for which reason: the first that applies. */
  lemma RejectedExactly(c: Config)
    ensures Validate(c) == Rejected(NoFrpcPath) <==> c.frpcPath == ""
    ensures Validate(c) == Rejected(NoConfigPath) <==> c.frpcPath != "" && c.configPath == ""
    ensures Validate(c).Accepted? <==>
              && c.frpcPath != "" && c.configPath != ""
              && c.restartDelay >= 0 && c.maxRestartDelay >= 0 && c.maxRetries >= 0
    ensures Validate(c) == Rejected(NegativeDelay) ==> c.restartDelay < 0
    ensures Validate(c) == Rejected(NegativeCap) ==> c.maxRestartDelay < 0 <= c.restartDelay
    ensures Validate(c) == Rejected(NegativeRetries) ==>
              c.maxRetries < 0 && c.restartDelay >= 0 && c.maxRestartDelay >= 0
  {
  }

  /** A setting other than zero is kept; zero stands for one second, five minutes and ten retries. */
  lemma OnlyZeroIsDefaulted(c: Config)
    ensures var d := WithDefaults(c);
            && d.frpcPath == c.frpcPath && d.configPath == c.configPath
            && (c.restartDelay != 0 ==> d.restartDelay == c.restartDelay)
            && (c.maxRestartDelay != 0 ==> d.maxRestartDelay == c.maxRestartDelay)
            && (c.maxRetries != 0 ==> d.maxRetries == c.maxRetries)
            && (c.restartDelay == 0 ==> d.restartDelay == 1_000_000_000)
            && (c.maxRestartDelay == 0 ==> d.maxRestartDelay == 300_000_000_000)
            && (c.maxRetries == 0 ==> d.maxRetries == 10)
  {
  }

  /**
   Start runs the loop only on a configuration that New defaulted and Validate accepted.
   Such a configuration always has a retry limit, so the documented "0 for unlimited" is out
   of reach, and a zero asks for ten retries instead.
   */
  lemma LoopConfigIsLimited(c: Config)
    ensures Validate(WithDefaults(c)) == Validate(c)
    ensures Validate(c).Accepted? ==>
              var d := WithDefaults(c);
              d.restartDelay > 0 && d.maxRestartDelay > 0 && d.maxRetries > 0
    ensures c.maxRetries == 0 ==> WithDefaults(c).maxRetries == 10
    ensures WithDefaults(WithDefaults(c)) == WithDefaults(c)
  {
  }
}
