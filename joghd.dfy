/** The command's decisions once the configuration is loaded (cmd/joghd): the mode
    override, the startup checks, building the alerter and the one-shot run. Flag
    parsing, signals, logging and os.Exit are not modelled. */
module Joghd {
  import opened Domain
  import Config
  import Telegram
  import Alerter

  /** A non-empty -mode flag replaces the configured mode. */
  function EffectiveMode(configured: string, flagMode: string): (mode: string)
    ensures flagMode != "" ==> mode == flagMode
    ensures flagMode == "" ==> mode == configured
  {
    if flagMode != "" then flagMode else configured
  }

  /** What main does with a loaded configuration. */
  datatype Run = FatalNoTargets | Oneshot | Continuous | FatalUnknownMode(mode: string)

  /** main after config.Load: override the mode, refuse an empty target list, then
      dispatch on the mode. */
  function Startup(cfg: Config.Config, flagMode: string): (run: Run)
    ensures cfg.targets == [] ==> run == FatalNoTargets
    ensures cfg.targets != [] ==>
              (run == Oneshot <==> EffectiveMode(cfg.app.mode, flagMode) == "oneshot") &&
              (run == Continuous <==> EffectiveMode(cfg.app.mode, flagMode) == "continuous")
  {
    var mode := EffectiveMode(cfg.app.mode, flagMode);
    if |cfg.targets| == 0 then FatalNoTargets
    else if mode == "oneshot" then Oneshot
    else if mode == "continuous" then Continuous
    else FatalUnknownMode(mode)
  }

  /** Without a -mode flag a validated configuration always runs; the flag is applied
      after validation, so a bad flag value reaches the dispatch and ends the process
      there. */
  lemma StartupAfterValidation(cfg: Config.Config, flagMode: string)
    requires Config.Validate(cfg).None? && cfg.targets != []
    ensures flagMode == "" ==> !Startup(cfg, flagMode).FatalUnknownMode?
    ensures flagMode != "" && !Config.IsValidMode(flagMode) ==>
              Startup(cfg, flagMode) == FatalUnknownMode(flagMode)
  {
  }

  /** buildAlerter: an empty composite, plus the Telegram sink when it is enabled. */
  method BuildAlerter(cfg: Config.Config) returns (c: Alerter.CompositeAlerter)
    ensures fresh(c)
    ensures cfg.alerters.telegram.enabled ==>
              c.alerters == [Alerter.TelegramSink(Telegram.NewTelegramAlerter(cfg.alerters.telegram))]
    ensures !cfg.alerters.telegram.enabled ==> c.alerters == []
  {
    c := new Alerter.CompositeAlerter([]);
    if cfg.alerters.telegram.enabled {
      var telegram := Telegram.NewTelegramAlerter(cfg.alerters.telegram);
      c.Add(Alerter.TelegramSink(telegram));
    }
  }

  predicate AnyFailed(results: seq<CheckResult>) {
    exists i :: 0 <= i < |results| && !results[i].success
  }

  function FailureCount(results: seq<CheckResult>): nat {
    if results == [] then 0
    else FailureCount(results[..|results| - 1]) + (if results[|results| - 1].success then 0 else 1)
  }

  /** The alerts a one-shot run sends: one Failure alert per failed result, in result
      order, none for a success; `clock(i)` is the time when result i is handled. */
  function OneshotAlerts(results: seq<CheckResult>, clock: nat -> Time): seq<Alert> {
    if results == [] then []
    else
      var n := |results| - 1;
      OneshotAlerts(results[..n], clock) +
        (if results[n].success then [] else [NewFailureAlert(results[n], clock(n))])
  }

  /** One alert per failure, no deduplication, and each one is the Failure alert of a
      failed result. */
  lemma {:induction false} OneshotAlertsPerFailure(results: seq<CheckResult>, clock: nat -> Time)
    ensures |OneshotAlerts(results, clock)| == FailureCount(results)
    ensures forall a :: a in OneshotAlerts(results, clock) ==>
              a.alertType == AlertTypeFailure && a.severity == SeverityCritical &&
              a.result in results && !a.result.success
  {
    if results != [] {
      var n := |results| - 1;
      OneshotAlertsPerFailure(results[..n], clock);
      assert forall r :: r in results[..n] ==> r in results;
    }
  }

  /** Some result failed exactly when the failure count is positive. */
  lemma {:induction false} FailureCountPositive(results: seq<CheckResult>)
    ensures FailureCount(results) > 0 <==> AnyFailed(results)
  {
    if results != [] {
      var n := |results| - 1;
      FailureCountPositive(results[..n]);
      assert forall i :: 0 <= i < n ==> results[..n][i] == results[i];
    }
  }

  /** runOneshot over the results CheckAll returned: alert every failure through the
      alerter (a send error is only logged) and exit with 1 iff a check failed. */
  method RunOneshot(alerter: Alerter.CompositeAlerter, results: seq<CheckResult>,
                    env: Telegram.Env, clock: nat -> Time)
    returns (exitCode: int, sent: seq<Alert>)
    ensures exitCode == (if AnyFailed(results) then 1 else 0)
    ensures sent == OneshotAlerts(results, clock)
    ensures |sent| == FailureCount(results)
  {
    var hasFailures := false;
    sent := [];
    var i := 0;
    while i < |results|
      invariant 0 <= i <= |results|
      invariant hasFailures <==> AnyFailed(results[..i])
      invariant sent == OneshotAlerts(results[..i], clock)
    {
      assert results[..i + 1][..i] == results[..i];
      var result := results[i];
      if !result.success {
        hasFailures := true;
        var alert := NewFailureAlert(result, clock(i));
        var _, _ := alerter.Send(alert, env);
        sent := sent + [alert];
      }
      i := i + 1;
    }
    assert results[..i] == results;
    OneshotAlertsPerFailure(results, clock);
    if hasFailures {
      exitCode := 1;
    } else {
      exitCode := 0;
    }
  }
}
