/** The health-state tracker (package `scheduler`): one status per target URL, and the
    edge-triggered decision of when a check result warrants an alert. The checker is
    not modelled: each step receives the CheckResult it produced. Goroutines, tickers
    and the mutex are not modelled either: a step runs as one atomic unit. */
module Scheduler {
  import opened Wrappers
  import opened Domain
  import Alerter
  import Telegram

  /** The status a check result leaves behind. */
  function StatusAfter(success: bool): (s: HealthStatus)
    ensures s == StatusHealthy <==> success
    ensures s == StatusUnhealthy <==> !success
    ensures IsNamedStatus(s)
  {
    if success then StatusHealthy else StatusUnhealthy
  }

  /** The alert decision of checkAndAlert as the code writes it: a failure alerts unless
      the target was already unhealthy; a success alerts only when the status changed
      from something other than Unknown. */
  function Transition(prev: HealthStatus, success: bool): (kind: Option<AlertType>)
    ensures IsNamedStatus(prev) ==>
              (kind == Some(AlertTypeFailure) <==> !success && prev != StatusUnhealthy)
    ensures IsNamedStatus(prev) ==>
              (kind == Some(AlertTypeRecovery) <==> success && prev == StatusUnhealthy)
    ensures kind.None? || kind == Some(AlertTypeFailure) || kind == Some(AlertTypeRecovery)
  {
    var current := StatusAfter(success);
    var statusChanged := prev != current && prev != StatusUnknown;
    if !success then
      if prev != StatusUnhealthy then Some(AlertTypeFailure) else None
    else if statusChanged && current == StatusHealthy then Some(AlertTypeRecovery)
    else None
  }

  /** No alert in the steady states and on a first healthy check. */
  lemma QuietTransitions()
    ensures Transition(StatusUnknown, true).None?
    ensures Transition(StatusHealthy, true).None?
    ensures Transition(StatusUnhealthy, false).None?
  {
  }

  /** The alert checkAndAlert builds for a previous status and a result. */
  function AlertFor(prev: HealthStatus, result: CheckResult, now: Time): (alert: Option<Alert>)
    ensures alert.None? <==> Transition(prev, result.success).None?
    ensures alert.Some? ==> Some(alert.value.alertType) == Transition(prev, result.success)
    ensures alert.Some? && alert.value.alertType == AlertTypeFailure ==>
              alert.value == NewFailureAlert(result, now)
    ensures alert.Some? && alert.value.alertType == AlertTypeRecovery ==>
              alert.value == NewRecoveryAlert(result, now)
  {
    match Transition(prev, result.success)
    case None => None
    case Some(k) =>
      if k == AlertTypeFailure then Some(NewFailureAlert(result, now))
      else Some(NewRecoveryAlert(result, now))
  }

  // ------------------------------------------------------ runs on one target

  /** The status after a run of results on one target that started in `prev`. */
  function FinalStatus(prev: HealthStatus, successes: seq<bool>): (s: HealthStatus)
    ensures IsNamedStatus(prev) ==> IsNamedStatus(s)
  {
    if successes == [] then prev else StatusAfter(successes[|successes| - 1])
  }

  /** The kinds of the alerts sent over a run of results on one target. */
  function AlertKinds(prev: HealthStatus, successes: seq<bool>): seq<AlertType> {
    if successes == [] then []
    else
      var init := successes[..|successes| - 1];
      match Transition(FinalStatus(prev, init), successes[|successes| - 1])
      case None => AlertKinds(prev, init)
      case Some(k) => AlertKinds(prev, init) + [k]
  }

  function Parity(b: bool): nat {
    if b then 1 else 0
  }

  /** Alerting is edge-triggered: over any run, Failure and Recovery alerts strictly
      alternate, the first being a Recovery exactly when the run starts unhealthy, and
      the target ends unhealthy exactly when an odd number of edges (counting the
      starting state) has been crossed. So there is one Failure alert per entry into
      Unhealthy and one Recovery alert per exit from it. */
  lemma {:induction false} AlertsAlternate(prev: HealthStatus, successes: seq<bool>)
    requires IsNamedStatus(prev)
    ensures var kinds := AlertKinds(prev, successes);
            var start := Parity(prev == StatusUnhealthy);
            (forall i :: 0 <= i < |kinds| ==>
               kinds[i] == if (i + start) % 2 == 0 then AlertTypeFailure else AlertTypeRecovery) &&
            ((FinalStatus(prev, successes) == StatusUnhealthy) <==> (start + |kinds|) % 2 == 1)
  {
    if successes != [] {
      var init := successes[..|successes| - 1];
      AlertsAlternate(prev, init);
    }
  }

  /** How many times a kind occurs among alert kinds. */
  function CountKind(kinds: seq<AlertType>, k: AlertType): nat {
    if kinds == [] then 0
    else CountKind(kinds[..|kinds| - 1], k) + (if kinds[|kinds| - 1] == k then 1 else 0)
  }

  /** The entries into Unhealthy over a run: the failed checks that find the target
      not Unhealthy. */
  function Entries(prev: HealthStatus, successes: seq<bool>): nat {
    if successes == [] then 0
    else
      var init := successes[..|successes| - 1];
      Entries(prev, init) +
        (if !successes[|successes| - 1] && FinalStatus(prev, init) != StatusUnhealthy then 1 else 0)
  }

  /** The exits from Unhealthy over a run: the successful checks that find the target
      Unhealthy. */
  function Exits(prev: HealthStatus, successes: seq<bool>): nat {
    if successes == [] then 0
    else
      var init := successes[..|successes| - 1];
      Exits(prev, init) +
        (if successes[|successes| - 1] && FinalStatus(prev, init) == StatusUnhealthy then 1 else 0)
  }

  lemma CountKindSnoc(kinds: seq<AlertType>, x: AlertType, k: AlertType)
    ensures CountKind(kinds + [x], k) == CountKind(kinds, k) + (if x == k then 1 else 0)
  {
    assert (kinds + [x])[..|kinds|] == kinds;
  }

  /** Exactly one Failure alert per entry into Unhealthy and exactly one Recovery alert
      per exit from it, over any run that starts in a named status. */
  lemma {:induction false} AlertsCountEdges(prev: HealthStatus, successes: seq<bool>)
    requires IsNamedStatus(prev)
    ensures CountKind(AlertKinds(prev, successes), AlertTypeFailure) == Entries(prev, successes)
    ensures CountKind(AlertKinds(prev, successes), AlertTypeRecovery) == Exits(prev, successes)
  {
    if successes != [] {
      var init := successes[..|successes| - 1];
      var last := successes[|successes| - 1];
      var before := FinalStatus(prev, init);
      AlertsCountEdges(prev, init);
      var kinds := AlertKinds(prev, init);
      match Transition(before, last)
      case None =>
        assert AlertKinds(prev, successes) == kinds;
      case Some(k) =>
        assert AlertKinds(prev, successes) == kinds + [k];
        CountKindSnoc(kinds, k, AlertTypeFailure);
        CountKindSnoc(kinds, k, AlertTypeRecovery);
    }
  }

  /** The three runs that characterise edge triggering, from the initial Unknown status. */
  lemma EdgeTriggeredScenarios()
    ensures AlertKinds(StatusUnknown, [false, false, false]) == [AlertTypeFailure]
    ensures AlertKinds(StatusUnknown, [false, false, true]) == [AlertTypeFailure, AlertTypeRecovery]
    ensures AlertKinds(StatusUnknown, [true, true]) == []
  {
    assert [false, false, false][..2] == [false, false];
    assert [false, false, true][..2] == [false, false];
    assert [false, false][..1] == [false];
    assert [true, true][..1] == [true];
  }

  function Successes(results: seq<CheckResult>): (ss: seq<bool>)
    ensures |ss| == |results|
    ensures forall i :: 0 <= i < |results| ==> ss[i] == results[i].success
  {
    seq(|results|, i requires 0 <= i < |results| => results[i].success)
  }

  function KindsOf(alerts: seq<Alert>): (kinds: seq<AlertType>)
    ensures |kinds| == |alerts|
    ensures forall i :: 0 <= i < |alerts| ==> kinds[i] == alerts[i].alertType
  {
    seq(|alerts|, i requires 0 <= i < |alerts| => alerts[i].alertType)
  }

  /** The alerts sent over a run of results on one target that started in `prev`:
      each step's AlertFor from the status the earlier results left; `clock(i)` is
      the time at the i-th check. */
  function RunAlerts(prev: HealthStatus, results: seq<CheckResult>, clock: nat -> Time): seq<Alert> {
    if results == [] then []
    else
      var n := |results| - 1;
      var step := AlertFor(FinalStatus(prev, Successes(results[..n])), results[n], clock(n));
      RunAlerts(prev, results[..n], clock) + (if step.Some? then [step.value] else [])
  }

  /** One more result extends a run's alerts by that step's alert, if any, and
      decides the run's final status. */
  lemma RunAlertsStep(prev: HealthStatus, results: seq<CheckResult>, i: nat, clock: nat -> Time)
    requires i < |results|
    ensures var step := AlertFor(FinalStatus(prev, Successes(results[..i])), results[i], clock(i));
            RunAlerts(prev, results[..i + 1], clock) ==
              RunAlerts(prev, results[..i], clock) + (if step.Some? then [step.value] else [])
    ensures FinalStatus(prev, Successes(results[..i + 1])) == StatusAfter(results[i].success)
  {
    assert results[..i + 1][..i] == results[..i];
  }

  /** The alerts of a run have exactly the run's edge-triggered kinds. */
  lemma {:induction false} RunAlertsKinds(prev: HealthStatus, results: seq<CheckResult>, clock: nat -> Time)
    ensures KindsOf(RunAlerts(prev, results, clock)) == AlertKinds(prev, Successes(results))
  {
    if results != [] {
      var n := |results| - 1;
      RunAlertsKinds(prev, results[..n], clock);
      assert Successes(results)[..n] == Successes(results[..n]);
      var step := AlertFor(FinalStatus(prev, Successes(results[..n])), results[n], clock(n));
      var before := RunAlerts(prev, results[..n], clock);
      if step.Some? {
        assert KindsOf(before + [step.value]) == KindsOf(before) + [step.value.alertType];
      }
    }
  }

  function URLs(targets: seq<Target>): (urls: set<string>)
    ensures forall u :: u in urls <==> exists i :: 0 <= i < |targets| && targets[i].url == u
  {
    set i | 0 <= i < |targets| :: targets[i].url
  }

  class Scheduler {
    const alerter: Alerter.CompositeAlerter
    const targets: seq<Target>
    /** target URL -> health status; targets sharing a URL share one entry. */
    var states: map<string, HealthStatus>

    ghost predicate Valid()
      reads this
    {
      forall u :: u in states ==> IsNamedStatus(states[u])
    }

    /** New: one Unknown entry per distinct target URL. */
    constructor (alerter: Alerter.CompositeAlerter, targets: seq<Target>)
      ensures this.alerter == alerter && this.targets == targets
      ensures Valid()
      ensures states.Keys == URLs(targets)
      ensures forall u :: u in states ==> states[u] == StatusUnknown
    {
      this.alerter := alerter;
      this.targets := targets;
      var m: map<string, HealthStatus> := map[];
      for i := 0 to |targets|
        invariant m.Keys == URLs(targets[..i])
        invariant forall u :: u in m ==> m[u] == StatusUnknown
      {
        assert targets[..i + 1] == targets[..i] + [targets[i]];
        m := m[targets[i].url := StatusUnknown];
      }
      assert targets[..|targets|] == targets;
      states := m;
    }

    /** GetStatus: the stored status, or Go's zero value (Healthy) for a URL that has
        no entry. */
    function GetStatus(url: string): (s: HealthStatus)
      reads this
      ensures url in states ==> s == states[url]
      ensures url !in states ==> s == StatusHealthy
    {
      if url in states then states[url] else ZeroStatus
    }

    /** checkAndAlert for the result the checker produced: the status is overwritten
        before the alert (if any) is sent, and the send's outcome, which is only
        logged, has no say in the new state. */
    method CheckAndAlert(target: Target, result: CheckResult, env: Telegram.Env, now: Time)
      returns (alert: Option<Alert>)
      requires Valid()
      modifies this
      ensures Valid()
      ensures states == old(states)[target.url := StatusAfter(result.success)]
      ensures states.Keys == old(states).Keys + {target.url}
      ensures alert == AlertFor(old(GetStatus(target.url)), result, now)
    {
      var previous := GetStatus(target.url);
      var current := if result.success then StatusHealthy else StatusUnhealthy;
      states := states[target.url := current];
      var statusChanged := previous != current && previous != StatusUnknown;
      alert := None;
      if !result.success {
        if previous != StatusUnhealthy {
          alert := Some(NewFailureAlert(result, now));
          var _, _ := alerter.Send(alert.value, env);
        }
      } else if statusChanged && current == StatusHealthy {
        alert := Some(NewRecoveryAlert(result, now));
        var _, _ := alerter.Send(alert.value, env);
      }
    }

    /** runTargetLoop without its ticker: the checks of one target, one after another;
        `clock(i)` is the time at the i-th check. */
    method RunTargetLoop(target: Target, results: seq<CheckResult>, env: Telegram.Env, clock: nat -> Time)
      returns (alerts: seq<Alert>)
      requires Valid()
      modifies this
      ensures Valid()
      ensures alerts == RunAlerts(old(GetStatus(target.url)), results, clock)
      ensures KindsOf(alerts) == AlertKinds(old(GetStatus(target.url)), Successes(results))
      ensures GetStatus(target.url) == FinalStatus(old(GetStatus(target.url)), Successes(results))
      ensures results != [] ==> states.Keys == old(states).Keys + {target.url}
      ensures forall u :: u != target.url ==> GetStatus(u) == old(GetStatus(u))
    {
      ghost var prev := GetStatus(target.url);
      alerts := [];
      var i := 0;
      while i < |results|
        invariant 0 <= i <= |results|
        invariant Valid()
        invariant alerts == RunAlerts(prev, results[..i], clock)
        invariant GetStatus(target.url) == FinalStatus(prev, Successes(results[..i]))
        invariant i == 0 ==> states == old(states)
        invariant i > 0 ==> states.Keys == old(states).Keys + {target.url}
        invariant forall u :: u != target.url ==> GetStatus(u) == old(GetStatus(u))
      {
        RunAlertsStep(prev, results, i, clock);
        var alert := CheckAndAlert(target, results[i], env, clock(i));
        if alert.Some? {
          alerts := alerts + [alert.value];
        }
        i := i + 1;
      }
      assert results[..i] == results;
      RunAlertsKinds(prev, results, clock);
    }
  }
}
