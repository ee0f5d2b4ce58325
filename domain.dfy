/** The daemon's value types: targets, check results, health statuses and alerts
    (package `domain`). */
module Domain {
  import opened Wrappers

  /** Go's time.Duration: a count of nanoseconds. */
  type Duration = int

  const Millisecond: Duration := 1_000_000
  const Second: Duration := 1_000_000_000

  /** An instant, kept opaque: the model never reads the clock. */
  datatype Time = Time(unixNano: int)

  /** A configured endpoint. The defaulting of its zero fields happens in Config. */
  datatype Target = Target(
    name: string,
    url: string,
    expectedStatus: int,
    httpMethod: string,
    timeout: Duration,
    interval: Duration,
    headers: map<string, string>)

  /** The outcome of one logical check; `error` is None where Go's error is nil and
      otherwise holds the error's text. */
  datatype CheckResult = CheckResult(
    target: Target,
    success: bool,
    actualStatus: int,
    error: Option<string>,
    latency: Duration,
    timestamp: Time,
    attempts: int)

  /** HealthStatus is a Go int enumeration declared with iota. Any int is a value of
      the type; only the three constants below are named. */
  newtype HealthStatus = int

  const StatusHealthy: HealthStatus := 0
  const StatusUnhealthy: HealthStatus := 1
  const StatusUnknown: HealthStatus := 2

  /** Go's zero value of the type, what reading a missing map entry yields. */
  const ZeroStatus: HealthStatus := 0

  predicate IsNamedStatus(s: HealthStatus) {
    s == StatusHealthy || s == StatusUnhealthy || s == StatusUnknown
  }

  /** HealthStatus.String: the two known states by name, everything else "unknown". */
  function HealthStatusString(s: HealthStatus): (r: string)
    ensures r == "healthy" <==> s == StatusHealthy
    ensures r == "unhealthy" <==> s == StatusUnhealthy
    ensures r == "unknown" <==> s != StatusHealthy && s != StatusUnhealthy
  {
    if s == StatusHealthy then "healthy"
    else if s == StatusUnhealthy then "unhealthy"
    else "unknown"
  }

  /** The zero value of HealthStatus is Healthy, not Unknown, and the three named
      statuses render to three different texts. */
  lemma HealthStatusNaming()
    ensures ZeroStatus == StatusHealthy && ZeroStatus != StatusUnknown
    ensures forall s, t :: IsNamedStatus(s) && IsNamedStatus(t) && s != t ==>
              HealthStatusString(s) != HealthStatusString(t)
  {
  }

  newtype AlertType = int

  const AlertTypeFailure: AlertType := 0
  const AlertTypeRecovery: AlertType := 1

  /** AlertType.String. */
  function AlertTypeString(t: AlertType): (r: string)
    ensures r == "FAILURE" <==> t == AlertTypeFailure
    ensures r == "RECOVERY" <==> t == AlertTypeRecovery
    ensures r == "UNKNOWN" <==> t != AlertTypeFailure && t != AlertTypeRecovery
  {
    if t == AlertTypeFailure then "FAILURE"
    else if t == AlertTypeRecovery then "RECOVERY"
    else "UNKNOWN"
  }

  newtype Severity = int

  const SeverityInfo: Severity := 0
  const SeverityWarning: Severity := 1
  const SeverityCritical: Severity := 2

  /** Severity.String. */
  function SeverityString(s: Severity): (r: string)
    ensures r == "INFO" <==> s == SeverityInfo
    ensures r == "WARNING" <==> s == SeverityWarning
    ensures r == "CRITICAL" <==> s == SeverityCritical
    ensures r == "UNKNOWN" <==> s != SeverityInfo && s != SeverityWarning && s != SeverityCritical
  {
    if s == SeverityInfo then "INFO"
    else if s == SeverityWarning then "WARNING"
    else if s == SeverityCritical then "CRITICAL"
    else "UNKNOWN"
  }

  /** A notification about one transition; `alertType` is Go's `Type` field. */
  datatype Alert = Alert(
    alertType: AlertType,
    target: Target,
    result: CheckResult,
    message: string,
    severity: Severity,
    timestamp: Time)

  const FailureMessage := "Health check failed"
  const RecoveryMessage := "Health check recovered"

  /** NewFailureAlert, stamped with `now` (Go reads time.Now()). */
  function NewFailureAlert(result: CheckResult, now: Time): (a: Alert)
    ensures AlertTypeString(a.alertType) == "FAILURE" && SeverityString(a.severity) == "CRITICAL"
    ensures a.target == result.target && a.result == result && a.timestamp == now
    ensures result.error.Some? ==> a.message == result.error.value
    ensures result.error.None? ==> a.message == FailureMessage
  {
    var msg := if result.error.Some? then result.error.value else FailureMessage;
    Alert(AlertTypeFailure, result.target, result, msg, SeverityCritical, now)
  }

  /** NewRecoveryAlert, stamped with `now`. */
  function NewRecoveryAlert(result: CheckResult, now: Time): (a: Alert)
    ensures AlertTypeString(a.alertType) == "RECOVERY" && SeverityString(a.severity) == "INFO"
    ensures a.target == result.target && a.result == result && a.timestamp == now
    ensures a.message == RecoveryMessage
  {
    Alert(AlertTypeRecovery, result.target, result, RecoveryMessage, SeverityInfo, now)
  }

  /** The two constructors never produce the same alert: they disagree on type,
      severity and (whatever the error text) are told apart by both. */
  lemma FailureAndRecoveryDiffer(r1: CheckResult, r2: CheckResult, t1: Time, t2: Time)
    ensures NewFailureAlert(r1, t1) != NewRecoveryAlert(r2, t2)
    ensures NewFailureAlert(r1, t1).severity != NewRecoveryAlert(r2, t2).severity
  {
  }
}
