/** Configuration records, their validation, the defaulting of target fields, and the
    built-in defaults (package `config`). Reading files and the environment is not
    modelled: `LoadValidated` starts from the already unmarshalled configuration. */
module Config {
  import opened Wrappers
  import opened Text
  import opened Domain

  datatype AppConfig = AppConfig(mode: string, logLevel: string, concurrency: int)

  datatype HTTPConfig = HTTPConfig(timeout: Duration, userAgent: string, skipTLSVerification: bool)

  /** The backoff multiplier is a Go float64; it is carried here as a real. */
  datatype RetryConfig = RetryConfig(maxAttempts: int, initialWait: Duration, maxWait: Duration, multiplier: real)

  datatype TelegramConfig = TelegramConfig(enabled: bool, botToken: string, chatID: string)

  datatype AlertersConfig = AlertersConfig(telegram: TelegramConfig)

  datatype Config = Config(
    app: AppConfig,
    http: HTTPConfig,
    retry: RetryConfig,
    alerters: AlertersConfig,
    targets: seq<Target>)

  // ---------------------------------------------------------------- validation

  predicate IsValidMode(mode: string) {
    mode == "oneshot" || mode == "continuous"
  }

  /** Enabled Telegram needs both a bot token and a chat id; disabled needs neither. */
  predicate TelegramComplete(tg: TelegramConfig) {
    tg.enabled ==> tg.botToken != "" && tg.chatID != ""
  }

  predicate TargetComplete(t: Target) {
    t.url != "" && t.name != ""
  }

  function ModeError(mode: string): string {
    "invalid app.mode: " + mode + " (must be 'oneshot' or 'continuous')"
  }

  const BotTokenError := "telegram.bot_token is required when telegram is enabled"
  const ChatIDError := "telegram.chat_id is required when telegram is enabled"

  /** The error for target `i`: a missing URL is reported before a missing name. */
  function TargetError(i: nat, t: Target): (e: string)
    requires !TargetComplete(t)
    ensures StartsWith(e, "target[" + IntToString(i) + "]: ")
    ensures t.url == "" ==> e == "target[" + IntToString(i) + "]: " + "url is required"
    ensures t.url != "" ==> e == "target[" + IntToString(i) + "]: " + "name is required"
  {
    var prefix := "target[" + IntToString(i) + "]: ";
    if t.url == "" then prefix + "url is required" else prefix + "name is required"
  }

  /** The index of the first incomplete target at or after `from`, or |ts| when there
      is none. */
  function FirstIncomplete(ts: seq<Target>, from: nat): (j: nat)
    requires from <= |ts|
    ensures from <= j <= |ts|
    ensures forall k :: from <= k < j ==> TargetComplete(ts[k])
    ensures j < |ts| ==> !TargetComplete(ts[j])
    decreases |ts| - from
  {
    if from == |ts| || !TargetComplete(ts[from]) then from else FirstIncomplete(ts, from + 1)
  }

  /** The loop over targets from index `from` on: it returns at the first incomplete
      target with that target's error, and returns nothing when all are complete. */
  function ValidateTargets(ts: seq<Target>, from: nat): (err: Option<string>)
    requires from <= |ts|
    ensures var j := FirstIncomplete(ts, from);
            err == if j == |ts| then None else Some(TargetError(j, ts[j]))
    ensures err.None? <==> forall j :: from <= j < |ts| ==> TargetComplete(ts[j])
    decreases |ts| - from
  {
    if from == |ts| then None
    else if !TargetComplete(ts[from]) then Some(TargetError(from, ts[from]))
    else ValidateTargets(ts, from + 1)
  }

  /** `validate`: the mode, then the Telegram credentials, then the targets in order;
      the first failing check decides the error. */
  function Validate(cfg: Config): (err: Option<string>)
    ensures err.None? <==>
              IsValidMode(cfg.app.mode) && TelegramComplete(cfg.alerters.telegram) &&
              forall j :: 0 <= j < |cfg.targets| ==> TargetComplete(cfg.targets[j])
    ensures !IsValidMode(cfg.app.mode) ==> err == Some(ModeError(cfg.app.mode))
    ensures IsValidMode(cfg.app.mode) && cfg.alerters.telegram.enabled ==>
              (cfg.alerters.telegram.botToken == "" ==> err == Some(BotTokenError)) &&
              (cfg.alerters.telegram.botToken != "" && cfg.alerters.telegram.chatID == "" ==>
                 err == Some(ChatIDError))
    ensures IsValidMode(cfg.app.mode) && TelegramComplete(cfg.alerters.telegram) ==>
              err == ValidateTargets(cfg.targets, 0)
  {
    var tg := cfg.alerters.telegram;
    if !IsValidMode(cfg.app.mode) then Some(ModeError(cfg.app.mode))
    else if tg.enabled && tg.botToken == "" then Some(BotTokenError)
    else if tg.enabled && tg.chatID == "" then Some(ChatIDError)
    else ValidateTargets(cfg.targets, 0)
  }

  // ---------------------------------------------------------------- defaulting

  const DefaultMethod := "GET"
  const DefaultInterval: Duration := 30 * Second
  const DefaultExpectedStatus := 200

  /** One iteration of the defaulting loop in Load: each zero field takes its default,
      the timeout from the HTTP section. */
  function WithDefaults(t: Target, httpTimeout: Duration): (r: Target)
    ensures r.name == t.name && r.url == t.url && r.headers == t.headers
    ensures r.httpMethod != "" && r.interval != 0 && r.expectedStatus != 0
    ensures httpTimeout != 0 ==> r.timeout != 0
    ensures t.httpMethod != "" ==> r.httpMethod == t.httpMethod
    ensures t.timeout != 0 ==> r.timeout == t.timeout
    ensures t.interval != 0 ==> r.interval == t.interval
    ensures t.expectedStatus != 0 ==> r.expectedStatus == t.expectedStatus
  {
    t.(httpMethod := if t.httpMethod == "" then DefaultMethod else t.httpMethod,
       timeout := if t.timeout == 0 then httpTimeout else t.timeout,
       interval := if t.interval == 0 then DefaultInterval else t.interval,
       expectedStatus := if t.expectedStatus == 0 then DefaultExpectedStatus else t.expectedStatus)
  }

  /** Filling defaults twice is the same as filling them once. */
  lemma WithDefaultsIdempotent(t: Target, httpTimeout: Duration)
    ensures WithDefaults(WithDefaults(t, httpTimeout), httpTimeout) == WithDefaults(t, httpTimeout)
  {
  }

  /** A zero field takes exactly the documented default. */
  lemma WithDefaultsFillsZeroFields(t: Target, httpTimeout: Duration)
    ensures t.httpMethod == "" ==> WithDefaults(t, httpTimeout).httpMethod == "GET"
    ensures t.timeout == 0 ==> WithDefaults(t, httpTimeout).timeout == httpTimeout
    ensures t.interval == 0 ==> WithDefaults(t, httpTimeout).interval == 30 * Second
    ensures t.expectedStatus == 0 ==> WithDefaults(t, httpTimeout).expectedStatus == 200
  {
  }

  /** The whole target list after the defaulting loop. */
  function DefaultTargets(ts: seq<Target>, httpTimeout: Duration): (r: seq<Target>)
    ensures |r| == |ts|
    ensures forall i :: 0 <= i < |ts| ==> r[i] == WithDefaults(ts[i], httpTimeout)
  {
    seq(|ts|, i requires 0 <= i < |ts| => WithDefaults(ts[i], httpTimeout))
  }

  /** The defaulting loop of Load, in place on the target slice. */
  method ApplyTargetDefaults(targets: array<Target>, httpTimeout: Duration)
    modifies targets
    ensures targets[..] == DefaultTargets(old(targets[..]), httpTimeout)
  {
    var i := 0;
    while i < targets.Length
      invariant 0 <= i <= targets.Length
      invariant forall k :: 0 <= k < i ==> targets[k] == WithDefaults(old(targets[k]), httpTimeout)
      invariant forall k :: i <= k < targets.Length ==> targets[k] == old(targets[k])
    {
      var t := targets[i];
      if t.httpMethod == "" {
        t := t.(httpMethod := DefaultMethod);
      }
      if t.timeout == 0 {
        t := t.(timeout := httpTimeout);
      }
      if t.interval == 0 {
        t := t.(interval := DefaultInterval);
      }
      if t.expectedStatus == 0 {
        t := t.(expectedStatus := DefaultExpectedStatus);
      }
      targets[i] := t;
      i := i + 1;
    }
  }

  /** Defaulting never changes a target's URL or name, so the target part of validation
      gives the same verdict on the raw and on the defaulted list. */
  lemma {:induction false} ValidateTargetsIgnoresDefaults(ts: seq<Target>, httpTimeout: Duration, from: nat)
    requires from <= |ts|
    ensures ValidateTargets(DefaultTargets(ts, httpTimeout), from) == ValidateTargets(ts, from)
    decreases |ts| - from
  {
    if from < |ts| {
      var d := DefaultTargets(ts, httpTimeout);
      assert TargetComplete(d[from]) == TargetComplete(ts[from]);
      if TargetComplete(ts[from]) {
        ValidateTargetsIgnoresDefaults(ts, httpTimeout, from + 1);
      } else {
        assert d[from].url == ts[from].url && d[from].name == ts[from].name;
        assert TargetError(from, d[from]) == TargetError(from, ts[from]);
      }
    }
  }

  /** The last part of Load: validate the raw configuration (so validation sees the
      fields before any default is filled in), then default the targets in place. */
  method LoadValidated(raw: Config) returns (r: Result<Config>)
    ensures r.Err? <==> Validate(raw).Some?
    ensures r.Err? ==> r.error == "validating config: " + Validate(raw).value
    ensures r.Ok? ==> r.value == raw.(targets := DefaultTargets(raw.targets, raw.http.timeout))
    ensures r.Ok? ==> Validate(r.value).None?
  {
    var err := Validate(raw);
    if err.Some? {
      return Err("validating config: " + err.value);
    }
    var targets := new Target[|raw.targets|](i requires 0 <= i < |raw.targets| => raw.targets[i]);
    ApplyTargetDefaults(targets, raw.http.timeout);
    r := Ok(raw.(targets := targets[..]));
    ValidateTargetsIgnoresDefaults(raw.targets, raw.http.timeout, 0);
  }

  // ---------------------------------------------------------------- defaults

  /** Default(): the configuration the loaders start from. */
  function Default(): (cfg: Config)
    ensures cfg.targets == []
  {
    Config(
      AppConfig("oneshot", "info", 10),
      HTTPConfig(10 * Second, "Joghd/1.0", false),
      RetryConfig(3, 1 * Second, 10 * Second, 2.0),
      AlertersConfig(TelegramConfig(false, "", "")),
      [])
  }

  /** The defaults pass validation on their own: a valid mode, Telegram off, no targets;
      and the retry policy is well formed. */
  lemma DefaultIsValid()
    ensures Validate(Default()) == None
    ensures Default().app == AppConfig("oneshot", "info", 10)
    ensures Default().http.timeout == 10 * Second && Default().http.userAgent == "Joghd/1.0"
    ensures !Default().http.skipTLSVerification
    ensures Default().retry.maxAttempts == 3
    ensures Default().retry.initialWait == 1 * Second && Default().retry.maxWait == 10 * Second
    ensures Default().retry.multiplier == 2.0
    ensures Default().retry.maxAttempts >= 1
    ensures 0 <= Default().retry.initialWait <= Default().retry.maxWait
    ensures !Default().alerters.telegram.enabled
  {
  }
}
