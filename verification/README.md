# Monitor alerting core in Dafny

A model of the decision logic of a single-host resource monitor (`src/monitor.py`).
Each polling cycle collects a metrics record, appends it to a bounded history,
evaluates CPU, memory and disk percentages against two thresholds (`alert.levels`),
asks a per-level throttle whether an alert may go out, and periodically writes the
history to disk. The model states these decisions as pure functions. The OS, the
clock, SMTP and file I/O become parameters or outputs.

Modules, one file each:

- `Wrappers` (`wrappers.dfy`): `Option`, `Result` and `Outcome`. These stand in for
  Python's `None` returns and its raised exceptions (the `ValueError`s of validation and
  the `KeyError` for a missing `alert.interval`).
- `Metrics` (`metrics.dfy`): the `Snapshot` record and the `AlertLevel` (`Warning` or
  `Critical`). "No alert" is `None`.
- `Evaluator` (`evaluator.dfy`): `get_alert_level` as `AlertLevelOf`. Its result is
  characterised by the peak of the three percentages.
- `Throttle` (`throttle.dfy`): `AlertManager.should_send_alert` as `ShouldSend`. The
  clock reading `now` is an explicit parameter, and the state is a `map<AlertLevel, real>`.
  `SentAt` replays a sequence of requests.
- `History` (`history.dfy`): the append-then-evict history with cap 1000 (`Record`),
  checked against a reference definition (`Window`: the newest `min(n, 1000)` items).
- `Config` (`config.dfy`): the configuration dictionary as a record with optional keys,
  `validate_config` as presence checks over it, and the startup path that also reads
  `alert.interval`.
- `Scheduler` (`scheduler.dfy`): one iteration of `SystemMonitor.run` as `Step`.
  `Run` and `AlertsAt` cover many iterations.

Times and percentages are `real`. The decision paths only compare or subtract them,
so exact reals stand in for Python floats.

The model keeps the code's behaviour as written; in particular:

- The snapshot is appended to the history during collection, before evaluation, on
  every successful cycle.
- A failed collection hits `continue`: no alert, no save and no sleep.
- Validation never checks that warning < critical. With the thresholds swapped, the
  Warning level cannot occur (`InvertedThresholdsNeverWarn`).
- The save condition is `len(history) % 100 == 0` after the append. The history stays
  at 1000 once it is full, so from then on every successful cycle saves
  (`SaveSchedule`, `FullHistorySavesEveryIteration`).
- `alert.interval` is not validated. A configuration without it passes
  `validate_config` and fails when the alert manager is built
  (`AlertIntervalIsNotValidated`).
- The recorded alert times never decrease when the interval is non-negative, even if
  the wall clock steps backwards. Alerts of one level are always at least the interval
  apart (`SendsAreSpaced`).

## Model

| member | source | states |
|---|---|---|
| `Evaluator.AlertLevelOf` | src/monitor.py:160-180 | Critical iff some percentage is strictly above the critical threshold. Warning iff none is above critical and the peak is strictly above warning. Otherwise no level, and no level for a missing record. |
| `Evaluator.LevelIsMonotone` | src/monitor.py:168-180 | Raising any of the three percentages never lowers the alert level. |
| `Evaluator.AtOrBelowWarningIsQuiet` | src/monitor.py:175-180 | With ordered thresholds, percentages all at or below warning raise nothing. Equality does not trigger a level. |
| `Evaluator.CriticalTakesPrecedence` | src/monitor.py:168-172 | One percentage above critical yields Critical, whatever the other two are. |
| `Evaluator.InvertedThresholdsNeverWarn` | src/monitor.py:165-180 | If warning >= critical, the evaluator never returns Warning. |
| `Evaluator.ShippedThresholdBoundaries` | src/monitor.py:169-178 | With thresholds 85 and 95: 85 raises nothing, 85.5 and 95 raise Warning, 95.1 raises Critical. |
| `Throttle.ShouldSend` | src/monitor.py:274-284 | The first request for a level is allowed. A later one is allowed iff now - last >= interval. Allowing records now; refusing leaves the map unchanged. Other levels are untouched. With interval >= 0, no recorded time decreases. |
| `Throttle.SendsAreSpaced` | src/monitor.py:277-284 | Over any request sequence, consecutive alerts allowed for one level are at least the interval apart. The first is at least the interval after the level's recorded time. |
| `Throttle.LevelsAreIndependent` | src/monitor.py:270-284 | What is allowed for a level depends only on that level's own entry and its own requests, so a Warning never suppresses a Critical. |
| `Throttle.OneHourExample` | src/monitor.py:274-284 | Interval 3600: Critical at t0 is allowed, at t0+1000 refused, at t0+3601 allowed. Warning at t0+10 is allowed. |
| `History.Record` | src/monitor.py:117-120 | From a history within the cap of 1000, the result stays within it, ends with the new record, and equals the newest-1000 window of history plus record. On overflow exactly index 0 is dropped. |
| `History.RecordAllIsWindow` | src/monitor.py:117-120 | Recording a sequence one by one leaves exactly the newest min(n, 1000) records in arrival order. |
| `History.RecordLength` | src/monitor.py:117-120 | Within the cap, one record grows the history by one until it holds 1000, then keeps it at 1000. |
| `History.HistoryLength` | src/monitor.py:66-69 | From an empty history, after n records the history holds min(n, 1000) of them. |
| `Config.Validate` | src/monitor.py:19-44 | Passes iff none of the required keys is missing: the five top-level keys, thresholds.cpu/memory/disk, alert.levels.warning/critical and the six email keys. Otherwise it reports the first missing key in check order. |
| `Config.Startup` | src/monitor.py:367-386 | Startup succeeds iff validation passes and alert.interval is present. The settings carry exactly the configured thresholds and interval. A validation failure is passed through unchanged. A validated configuration without alert.interval fails with the missing-interval error. |
| `Config.ShippedConfigStarts` | config/config.py:5-48 | The shipped configuration starts with thresholds 85/95 and an interval of 3600 s. |
| `Config.SwappedThresholdsPass` | src/monitor.py:32-38 | A configuration with warning 95 and critical 85 passes validation and starts. |
| `Config.AlertIntervalIsNotValidated` | src/monitor.py:269-272 | Any configuration with no missing validated key but without alert.interval passes validation and fails at startup with the missing-interval error. |
| `Config.ShippedWithoutAlertInterval` | src/monitor.py:269-272 | The shipped configuration with alert.interval removed passes validation and fails at startup. |
| `Config.TopLevelKeysComeFirst` | src/monitor.py:21-30 | Whenever a top-level key is missing, validation reports the first missing top-level key, whatever is missing inside the sections. |
| `Config.MissingEmailReportedFirst` | src/monitor.py:21-30 | The shipped configuration without email and with empty thresholds reports email. |
| `Scheduler.Step` | src/monitor.py:236-263 | A failed collection changes nothing, alerts nothing and saves nothing. Otherwise the sample is recorded first. An alert goes out iff the sample evaluates to a level and the throttle allows it: the level has no recorded time, or now - last >= alert.interval. Sending sets that level's time to now and leaves the other level's entry alone; not sending leaves the times unchanged. A save happens iff the new history length is a multiple of 100. The history cap and the monotone alert times are kept. |
| `Scheduler.RunRecordsCollected` | src/monitor.py:236-241 | Over a run, the history is the successfully collected samples recorded in order. Failed collections leave no trace. |
| `Scheduler.HistoryIsNewestSamples` | src/monitor.py:117-120 | From a fresh monitor, the history is the newest min(n, 1000) collected samples. |
| `Scheduler.RunHistoryLength` | src/monitor.py:117-120 | From a fresh monitor, the history length is the number of collected samples capped at 1000. |
| `Scheduler.AlertsFollowThrottle` | src/monitor.py:253-256 | The alerts a run hands to the notifier are exactly those the throttle allows for the run's requests: one request per collected sample that evaluates to a level. |
| `Scheduler.AlertsAreRateLimited` | src/monitor.py:253-256 | Alerts of one level leave the loop at least alert.interval apart. |
| `Scheduler.SaveSchedule` | src/monitor.py:258-260 | From a fresh monitor, the n-th successful collection saves iff n is a multiple of 100 or n >= 1000. |
| `Scheduler.SaveOnCount` | src/monitor.py:258-260 | On a history holding the c samples collected so far (capped at 1000), a successful iteration saves iff c + 1 is a multiple of 100 or c + 1 >= 1000. |
| `Scheduler.SaveAfter` | src/monitor.py:117-120 | From a history within the cap, a successful iteration saves iff the appended length is a multiple of 100 or the history was already full. |
| `Scheduler.FullHistorySavesEveryIteration` | src/monitor.py:258-260 | With a full history, a successful iteration keeps it at 1000 and saves. |
| `Scheduler.HeldBackRequests` | src/monitor.py:244-254 | In the held-back example, each of the three samples evaluates to Critical and asks the throttle. |
| `Scheduler.HeldBackThrottle` | src/monitor.py:274-284 | The throttle with interval 3600 allows Critical at t0 and refuses it at t0+600 and t0+2400. No Warning is allowed. |
| `Scheduler.SameLevelIsHeldBack` | src/monitor.py:236-263 | With thresholds 85/95 and interval 3600, three critical samples at t0, t0+600 and t0+2400 send only the first alert, although the second was triggered by a different metric. |

## Left out

- Metric collection through psutil, `get_network_metrics` and `check_critical_processes`: these are OS calls. A snapshot, or its absence, is an input to `Step`.
- `format_alert_message`: string templating with float division and `.2f` formatting. Its output has no contract.
- `send_alert_email`: SMTP I/O. The `alert` output of `Step` is the attempt to send. A delivery failure is only logged and does not undo the throttle update, so the model needs nothing further.
- `save_metrics_to_file`: JSON file I/O. Only the decision to save (`save` of `Step`) is modelled.
- Logging setup, log directory creation, `time.sleep` and the catch-all `except` with its 60 s fallback. No modelled step raises, so the fallback path is not reachable in the model.
- Signal handlers, `main`'s command-line handling and `test_monitor_components`: process control and CLI.
- Config.Validate: the configuration is a typed record with optional keys. A section that is present but is not a dictionary makes Python's `in` raise or test membership differently, and this case is not modelled. `critical_processes` and `thresholds.network` are not checked by the source and carry no constraint here. The values are typed here (`real`, `string`, `int`), so an ill-typed value is not modelled: for example a string threshold passes validation in the source and then makes the comparison at src/monitor.py:169 raise on every cycle, after the history append and before the save check.
- Config.Startup: a configuration without `log_file` already fails when the module is imported (src/monitor.py:47 reads the key before `main` validates), with a KeyError rather than the validation error. The model reports the first missing key from validation instead: `log_file`, or `interval` when that is missing too. The source always names `log_file`. Both paths fail at startup.
- Scheduler.Step: the clock is the single `now` parameter the throttle sees. The sleep length (`interval`) is not part of the step.
