# joghd health-check daemon: a Dafny model of its core

joghd probes a list of HTTP targets and sends alerts through notification sinks (a
Telegram bot). It runs either once ("oneshot": check every target, alert every failure,
and exit with 1 if any check failed) or continuously ("continuous": check each target
periodically and alert only on state transitions). This project models the parts of the
daemon that make decisions, and proves what they promise:

- **Health-state tracker** (`scheduler.dfy`, class `Scheduler.Scheduler`). It keeps a map
  from target URL to `HealthStatus` that starts with every URL `Unknown`. `CheckAndAlert`
  overwrites one entry and decides whether to send a Failure alert, a Recovery alert or
  nothing. The decision is the pure function `Transition`, whose contract states the
  edge rule for one step: a Failure alert iff a failed check finds the target not
  Unhealthy, a Recovery alert iff a successful check finds it Unhealthy.
  `AlertsCountEdges` carries this over a whole run: the number of Failure alerts equals
  the number of entries into Unhealthy, and the number of Recovery alerts the number of
  exits from it. `AlertsAlternate` adds that the two kinds strictly alternate.
- **Composite alerter** (`alerter.dfy`, class `Alerter.CompositeAlerter`). It sends an
  alert to every sink in order, keeps going after a failure, and collects `name: error`
  entries. A sink is a tagged union: the Telegram sink, or a sink known only by its name
  and its fixed outcome.
- **Alerts and enumerations** (`domain.dfy`). These are the alert constructors and the
  `String` tables. `HealthStatus`, `AlertType` and `Severity` are int newtypes, like the
  Go iota constants, so the Go zero value and out-of-range values exist in the model.
- **Configuration** (`config.dfy`). It covers `validate` with its ordered error checks,
  the target-defaulting loop of `Load` (on an array, in place), and `Default()`.
- **Telegram sink** (`telegram.dfy`). It covers the message text, the sendMessage request
  (URL and JSON body) and how the HTTP answer is classified.
- **Command** (`joghd.dfy`). It covers the `-mode` override, the startup checks,
  `buildAlerter` and `runOneshot`.

`wrappers.dfy` holds Option/Result. `text.dfy` holds Go's `%d` rendering (with a proved
round trip) and `strings.Join`.

The outside world enters as parameters. The checker is abstract, so each step receives
the `CheckResult` it produced. The time from `time.Now()` is a `now` or `clock`
parameter. `Telegram.Env` carries three things: the HTTP POST (`post`), the rendering of
a latency rounded to milliseconds (`latencyText`) and the rendering of a timestamp
(`timeText`).

The model keeps these behaviours of the code:

- A status query for a URL that has no entry returns Go's zero value, which is
  `StatusHealthy` (iota 0). It does not return `Unknown`.
- Sinks form an ordered list, not a mapping, so sinks with the same name are all called.
- Configuration is validated inside `Load`, before the target fields are defaulted.
- Two targets with the same URL share one state entry.

## Model

| member | source | states |
|---|---|---|
| Domain.HealthStatusString | internal/domain/target.go:36-45 | "healthy" exactly for Healthy, "unhealthy" exactly for Unhealthy, "unknown" for Unknown and every out-of-range value |
| Domain.HealthStatusNaming | internal/domain/target.go:30-45 | the zero HealthStatus is Healthy, not Unknown; the three named statuses render to three distinct strings |
| Domain.AlertTypeString | internal/domain/alert.go:13-22 | "FAILURE" iff Failure, "RECOVERY" iff Recovery, "UNKNOWN" for any other value |
| Domain.SeverityString | internal/domain/alert.go:33-44 | "INFO", "WARNING", "CRITICAL" each iff its constant, "UNKNOWN" for any other value |
| Domain.NewFailureAlert | internal/domain/alert.go:56-71 | type Failure, severity Critical, the result's target, the result itself, the given time; message is the error text if there is an error, else "Health check failed" |
| Domain.NewRecoveryAlert | internal/domain/alert.go:73-83 | type Recovery, severity Info, message "Health check recovered", the result's target and the result |
| Domain.FailureAndRecoveryDiffer | internal/domain/alert.go:56-83 | a failure alert never equals a recovery alert, and their severities differ |
| Config.FirstIncomplete | internal/config/config.go:128-135 | the index of the first target with an empty URL or name: every target before it is complete, the one at it is not |
| Config.TargetError | internal/config/config.go:129-134 | a target error starts "target[i]: " with the target's index; an empty URL gives "url is required", otherwise (URL present, name empty) "name is required" |
| Config.ValidateTargets | internal/config/config.go:128-137 | the target loop fails with the error of the first incomplete target (URL checked before name), and succeeds iff every target has a URL and a name |
| Config.Validate | internal/config/config.go:114-138 | succeeds iff the mode is "oneshot" or "continuous", Telegram (when enabled) has token and chat id, and every target is complete; a bad mode is reported first, then a missing token, then a missing chat id, then the first bad target |
| Config.WithDefaults | internal/config/config.go:96-109 | name, URL and headers are kept; non-zero fields are untouched; afterwards method, interval and expected status are non-zero, and timeout is too when the HTTP timeout is |
| Config.WithDefaultsFillsZeroFields | internal/config/config.go:97-108 | an empty method becomes "GET", a zero timeout the HTTP timeout, a zero interval 30s, a zero expected status 200 |
| Config.WithDefaultsIdempotent | internal/config/config.go:96-109 | applying the defaults twice equals applying them once |
| Config.DefaultTargets | internal/config/config.go:96-109 | defaulting keeps the number and order of targets and defaults each one |
| Config.ApplyTargetDefaults | internal/config/config.go:96-109 | the in-place loop leaves the slice equal to the defaulted list of its old contents |
| Config.ValidateTargetsIgnoresDefaults | internal/config/config.go:91-109 | the target checks give the same verdict on the raw and the defaulted list, so validating before defaulting sees the same verdict |
| Config.LoadValidated | internal/config/config.go:91-111 | fails iff validation of the raw configuration fails, with "validating config: " and its error; otherwise returns the configuration with defaulted targets, which passes validation |
| Config.Default | internal/config/default.go:6-30 | the defaults hold no targets |
| Config.DefaultIsValid | internal/config/default.go:8-28 | mode "oneshot", log level "info", concurrency 10; HTTP timeout 10s, user agent "Joghd/1.0", TLS verification on; 3 attempts, initial wait 1s, max wait 10s (so 0 <= initial <= max), multiplier 2; Telegram disabled; and the defaults pass validation |
| Telegram.NewTelegramAlerter | internal/alerter/telegram.go:23-29 | the sink takes bot token and chat id from the configuration |
| Telegram.Icon | internal/alerter/telegram.go:64-67 | green circle iff the alert is a Recovery, red circle for every other type |
| Telegram.StatusWord | internal/alerter/telegram.go:69-72 | "RECOVERED" iff the alert is a Recovery, "FAILED" for every other type |
| Telegram.FieldLines | internal/alerter/telegram.go:74-97 | the field lines appear in the fixed order Target (target name), URL (target URL in backticks), Expected (expected status), Actual (observed status), Latency, Attempts (attempt count), Time, then Error; there are 8 iff the alert is a Failure with an error, else 7 |
| Telegram.NumericFieldsReadBack | internal/alerter/telegram.go:77-91 | the numbers after the Expected, Actual and Attempts labels read back as the expected status, the observed status and the attempt count |
| Telegram.FormatMessage | internal/alerter/telegram.go:63-100 | the message is the header, a blank line, then the field lines joined by "\n"; it starts with the header line (icon, status word, target name) and a blank line, and ends with the Error line iff it has one (a Failure with an error), else with the Time line (always for recovery messages) |
| Telegram.SendMessageURL | internal/alerter/telegram.go:35 | the request URL is "https://api.telegram.org/bot" + token + "/sendMessage", and the token can be read back out of it |
| Telegram.BuildRequest | internal/alerter/telegram.go:33-44 | the request goes to the bot's sendMessage URL with chat_id, the formatted message as text, and parse_mode "Markdown" |
| Telegram.Classify | internal/alerter/telegram.go:47-55 | success iff an HTTP answer with status 200; a transport error becomes "sending telegram message: ..."; another status becomes "telegram API error: status N, ..." |
| Telegram.Send | internal/alerter/telegram.go:32-56 | Send succeeds iff the POST of the built request answers HTTP 200 |
| Telegram.Name | internal/alerter/telegram.go:59-61 | the sink's name is "telegram" |
| Alerter.FailuresEmptyIffAllSucceed | internal/alerter/composite.go:24-36 | no error is collected iff every sink succeeds (so an empty sink list never fails) |
| Alerter.FailuresAppend | internal/alerter/composite.go:26-30 | the errors of a concatenated sink list are those of each part, in order |
| Alerter.FailuresOfOne | internal/alerter/composite.go:27-28 | a succeeding sink contributes nothing; a failing one exactly "name: error" |
| Alerter.FailuresBounded | internal/alerter/composite.go:26-30 | there are never more errors than sinks |
| Alerter.OneOfTwoSinksFails | internal/alerter/composite.go:23-37 | with sinks A (succeeds) and B (fails) the combined error holds the entry for B only |
| Alerter.SinkNames | internal/alerter/composite.go:41-44 | one name per sink, in sink order |
| Alerter.CompositeNameAfterAdd | internal/alerter/composite.go:40-46 | an empty composite is named "composite[]"; adding a sink appends ",name" (or just its name to an empty list) inside the brackets |
| Alerter.CompositeAlerter.constructor | internal/alerter/composite.go:18-20 | the composite holds exactly the given sinks |
| Alerter.CompositeAlerter.Send | internal/alerter/composite.go:23-37 | the result is None iff every sink succeeded, else exactly the list of "name: error" entries of the failing sinks in sink order (each sink's outcome for the same alert counts once); the record of calls it keeps lists every sink once, in order, with that alert |
| Alerter.CompositeAlerter.Name | internal/alerter/composite.go:40-46 | "composite[" + the sink names joined by "," + "]" |
| Alerter.CompositeAlerter.Add | internal/alerter/composite.go:49-51 | the sink is appended last; earlier sinks and their order are unchanged |
| Scheduler.StatusAfter | internal/scheduler/scheduler.go:82-87 | a result leaves Healthy iff it succeeded and Unhealthy iff it failed, never Unknown |
| Scheduler.Transition | internal/scheduler/scheduler.go:92-118 | from a named status: a Failure alert iff the check failed and the target was not Unhealthy; a Recovery alert iff the check succeeded and the target was Unhealthy; at most one alert |
| Scheduler.QuietTransitions | internal/scheduler/scheduler.go:92-118 | Unknown to Healthy, Healthy to Healthy and Unhealthy to Unhealthy send nothing |
| Scheduler.AlertFor | internal/scheduler/scheduler.go:94-114 | the alert sent is the failure alert or the recovery alert of the result, exactly as the transition decides |
| Scheduler.FinalStatus | internal/scheduler/scheduler.go:83-88 | after a run of results from a named status, the target is in a named status |
| Scheduler.AlertsAlternate | internal/scheduler/scheduler.go:92-109 | over any run on one target, alerts alternate Failure/Recovery (starting with Recovery iff the run starts Unhealthy), and the target ends Unhealthy iff an odd number of edges was crossed, counting an Unhealthy start as one |
| Scheduler.AlertsCountEdges | internal/scheduler/scheduler.go:92-109 | over any run on one target from a named status, the number of Failure alerts equals the number of failed checks that find the target not Unhealthy, and the number of Recovery alerts the number of successful checks that find it Unhealthy |
| Scheduler.RunAlertsKinds | internal/scheduler/scheduler.go:92-114 | the alerts of a run (each step's failure or recovery alert of that step's result) have exactly the run's edge-triggered kinds |
| Scheduler.EdgeTriggeredScenarios | internal/scheduler/scheduler.go:92-109 | from Unknown: fail, fail, fail gives one Failure alert; fail, fail, success gives Failure then Recovery; success, success gives none |
| Scheduler.Scheduler.constructor | internal/scheduler/scheduler.go:25-37 | the state map's keys are exactly the target URLs (one entry per distinct URL), each Unknown |
| Scheduler.Scheduler.GetStatus | internal/scheduler/scheduler.go:122-126 | the stored status, or Healthy (Go's zero value) for a URL without an entry |
| Scheduler.Scheduler.CheckAndAlert | internal/scheduler/scheduler.go:77-119 | the target's entry becomes Healthy/Unhealthy by the result and nothing else changes; the alert is the one the transition from the previous status decides; the send's outcome does not affect the state |
| Scheduler.Scheduler.RunTargetLoop | internal/scheduler/scheduler.go:60-75 | a sequence of checks on one target sends exactly the run's alerts: at each step the alert AlertFor decides from the status the earlier results left, built from that step's result and time; it ends in the run's final status and leaves other URLs' statuses alone |
| Joghd.EffectiveMode | cmd/joghd/main.go:41-44 | a non-empty -mode flag replaces the configured mode; an empty one keeps it |
| Joghd.Startup | cmd/joghd/main.go:41-87 | an empty target list ends the program before any check; otherwise oneshot or continuous runs iff the effective mode says so |
| Joghd.StartupAfterValidation | cmd/joghd/main.go:36-87 | a validated configuration without a flag always runs; an invalid flag value, applied after validation, ends in the unknown-mode exit |
| Joghd.BuildAlerter | cmd/joghd/main.go:90-100 | a fresh composite holding exactly the Telegram sink iff Telegram is enabled, else no sink |
| Joghd.OneshotAlertsPerFailure | cmd/joghd/main.go:108-122 | one Failure alert (severity Critical) per failed result, each for a failed result, with no deduplication |
| Joghd.FailureCountPositive | cmd/joghd/main.go:107-113 | some result failed iff the failure count is positive |
| Joghd.RunOneshot | cmd/joghd/main.go:102-132 | exit code 1 iff some result failed, else 0; the alerts sent are the failure alerts of the failed results in result order, however the sends turn out |

## Left out

- The retrying prober and the bounded concurrency pool (`checker.New`, `Check`, `CheckAll`) are outside this model. Every `CheckResult` is an input.
- internal/checker/client.go (`RestyClient.Execute`) is network I/O and is not modelled.
- Goroutines, the WaitGroup join, tickers, cancellation and the RWMutex in `Start` and `runTargetLoop` are not modelled. `CheckAndAlert` is one atomic step, and `RunTargetLoop` is one target's checks in sequence.
- `Load`'s koanf reading of defaults, file and environment, and the unmarshalling, are library calls and are not modelled. `LoadValidated` starts from the unmarshalled configuration.
- Flag parsing, `-version`, signal handling, logging, `os.Exit` and `log.Fatal` are not modelled. `Startup` returns which way main goes.
- `time.Now()` is a parameter. `Duration.Round`/`String` and `Time.Format` are the `latencyText` and `timeText` functions of `Telegram.Env`.
- The Telegram HTTP POST is `Env.post`, a function of the request. So the same request always gets the same answer in the model. The Content-Type header is not modelled.
- The retry `Multiplier` is a float64. It is carried as a `real` and is never used.
- Go's 64-bit `int` and `time.Duration` are unbounded integers here, so overflow is not modelled.
- Telegram.Classify: the text of a non-200 error is stated only up to its status part, because the body's rendering (`resp.String()`) belongs to the HTTP library.
- Alerter.CompositeAlerter.Send: the joined error is returned as its list of entries, not as the newline-joined text that `errors.Join` renders.
- Any Alerter implementation other than Telegram is modelled as `FixedSink`, with a name and a fixed outcome.
