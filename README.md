# StatMon daemon core, in Dafny

This project models the sequential decision logic of the StatMon monitoring daemon and proves properties of it. There are four pieces:

- **Interval scheduler** (`scheduler.dfy`, module `Scheduling`). This is the job list and the tick that attempts every job whose period has elapsed. A failing job is stamped like a successful one. The fluent `every(n).seconds/minutes.do(f)` builder is included.
- **Alert engine** (`alerting.dfy`, module `Alerting`). One evaluation pass over a snapshot of the store covers:
  - the ping-failure streak;
  - the latest reading per station and parameter;
  - the newest timestamp per station;
  - the data-gap and threshold tests;
  - the per-station settings;
  - the process-lifetime set of sent alert keys;
  - the fan-out to the Teams and email sinks, each isolated from the other's failure.
- **Configuration shaping** (`config_loader.dfy`, module `ConfigLoader`). This covers choosing the key/value table that holds the ping settings and parsing those settings partially. It also covers the row loops that build the ping-station list, the filestore ingest tasks and the logger poll tasks.
- **Filestore ingest pass** (`filestore_ingest.dfy`, module `FileStoreIngest`). For each task and each selected parameter, it applies the trend-window filter and count, adds readings to the session, and commits the pass or rolls it back.

`common.dfy` (module `Common`) holds the shared values: `Option`, `Outcome`, the `Reading` row and the `"Station {id}"` name fallback.

The model follows the source's own form. Objects whose fields change are classes with `modifies` clauses:

- `Scheduler`, with its `jobs` list;
- `JobBuilder`, with its `unit`;
- `AlertManager`, with its sent-key set, plus a log of dispatched alerts and a log of sink calls;
- the readings `Store` the ingest pass commits to.

Every `for` statement of the core is a `method` with a loop, proved against a specification function over sequences and maps. The properties are stated about those functions.

Inputs are plain values:

- Times are whole seconds, and `now` is always a parameter.
- A database query is the sequence of rows it returns.
- A job's function is known by its name, and whether it raises on a tick is a parameter.
- Python's `int()`/`float()` on text are the `Parsers` parameter.
- A JSON column is given by what decoding it produced.
- Whether a sink raises is the `failing` set of (sink, key) pairs.

Alert keys are the datatype `PingFail(sid, n) | Gap(sid, h) | Thresh(sid, p, ts)` instead of f-strings.

`_latest_readings_map` replaces an entry only on a strictly newer timestamp (statmon_daemon/alerting.py:179), so the first reading read wins; `Alerting.LatestWitness` proves it. The `defaultdict` in `_latest_readings_map` creates an empty entry for a station with a named reading even when its value does not convert, and `Alerting.Record` records that entry too.

## Model

| member | source | states |
|---|---|---|
| Scheduling.Scheduler.constructor | statmon_daemon/scheduler.py:27-28 | a new scheduler has no jobs |
| Scheduling.Scheduler.Every | statmon_daemon/scheduler.py:30-32 | returns a new builder for this scheduler with the given interval and no unit |
| Scheduling.Scheduler.AddJob | statmon_daemon/scheduler.py:34-40 | appends exactly one job with the given function, the given period and last run 0; the earlier jobs are unchanged |
| Scheduling.Tick | statmon_daemon/scheduler.py:45-54 | a tick keeps the number of jobs and their names and periods; a job's last run becomes `now` exactly when `now - last_run >= interval`, otherwise it is unchanged |
| Scheduling.Attempts | statmon_daemon/scheduler.py:45-52 | a tick calls exactly the due jobs, judged against the same `now`, in registration order, each with whether it raised |
| Scheduling.Scheduler.RunPending | statmon_daemon/scheduler.py:43-54 | the loop leaves the job list `Tick(old jobs, now)` and makes the calls `Attempts(old jobs, now, raises)`; a job that raised is stamped like one that did not |
| Scheduling.JobBuilder.constructor | statmon_daemon/scheduler.py:59-62 | a builder starts with its scheduler and interval and no unit |
| Scheduling.JobBuilder.Seconds | statmon_daemon/scheduler.py:64-67 | `.seconds` sets the unit to seconds and returns the same builder |
| Scheduling.JobBuilder.Minutes | statmon_daemon/scheduler.py:69-72 | `.minutes` sets the unit to minutes and returns the same builder |
| Scheduling.JobBuilder.Do | statmon_daemon/scheduler.py:74-81 | registers `interval` seconds for `.seconds` and `interval * 60` for `.minutes`; with no unit it fails with the ValueError and adds no job |
| Scheduling.LastRunIsLastFire | statmon_daemon/scheduler.py:46-54 | after any sequence of ticks, a job's last run is the time of its last attempt, or its initial value if it was never attempted |
| Scheduling.FiresIffPeriodElapsed | statmon_daemon/scheduler.py:46-54 | a further tick attempts a job if and only if a whole period has passed since its last attempt, whether or not that attempt raised; otherwise the job is not attempted |
| Scheduling.NoEarlyFire | statmon_daemon/scheduler.py:46-54 | a job's first attempt is at least one period after its initial last run, and any two consecutive attempts are at least one period apart, even when every call raised (no busy retry) |
| Scheduling.FirstTickFires | statmon_daemon/scheduler.py:39-47 | a job registered with last run 0 is attempted and stamped at the first tick at or after one period |
| Alerting.GetInt | statmon_daemon/alerting.py:196-205 | `_get_int` returns the converted attribute, or the default when the attribute is absent, None or not convertible |
| Alerting.Put | statmon_daemon/alerting.py:226 | storing a rule in the ordered dict adds its name to the names, and keeps the names distinct |
| Alerting.PutLookup | statmon_daemon/alerting.py:226 | after storing a rule, looking up its name gives the new rule, and looking up any other name is unchanged |
| Alerting.ThresholdsFromSpec | statmon_daemon/alerting.py:220-226 | the parsed thresholds have one rule per parameter; the rule for `p` carries the bounds of the last two-element entry named `p`; entries that are not two-element lists are dropped; null bounds stay None |
| Alerting.GetThresholds | statmon_daemon/alerting.py:207-230 | the loop computes the parsed thresholds, and gives none when the attribute is absent, falsy or does not parse |
| Alerting.LeadingFailures | statmon_daemon/alerting.py:157-161 | the count is a leading run of failures, no longer than the window, and ends at a success or at the end of the window |
| Alerting.ConsecutivePingFailures | statmon_daemon/alerting.py:148-162 | the count is 0 when `limit <= 0`; otherwise it is the leading failure run of the `max(20, limit)` most recent results, so it never exceeds that size or the history, and every counted result failed |
| Alerting.PingCandidates | statmon_daemon/alerting.py:94-97 | at most one ping-failure candidate, raised exactly when `limit > 0` and `count >= limit`, of high severity and keyed by the station and the count itself |
| Alerting.PingAlertIff | statmon_daemon/alerting.py:94-97 | a ping-failure alert is raised if and only if `limit > 0` and the `limit` most recent pings all failed; the search window never hides such a streak |
| Alerting.Record | statmon_daemon/alerting.py:173-184 | one reading: a nameless one changes nothing; a named one gives its station an entry even when its value does not convert; no other station changes; an entry is never replaced by an older one; a named, numeric reading leaves an entry for its parameter no older than itself |
| Alerting.LatestKeys | statmon_daemon/alerting.py:169-178 | the map has an entry for exactly the stations that have a reading with a non-empty name |
| Alerting.LatestReadingsMap | statmon_daemon/alerting.py:164-185 | the loop builds the latest-readings map of the readings in query order |
| Alerting.LatestDominates | statmon_daemon/alerting.py:175-184 | every reading with a name and a numeric value has an entry for its station and parameter, and that entry is no older than the reading |
| Alerting.LatestWitness | statmon_daemon/alerting.py:175-184 | every entry is the value and timestamp of a named, numeric reading of that station and parameter, and no earlier such reading has an equal or newer timestamp, so on a tie the first reading read wins |
| Alerting.LatestStationTimestamp | statmon_daemon/alerting.py:187-192 | the result is None exactly when the station has no parameters; otherwise it is the newest timestamp over its parameters (one parameter has it, and none is newer) |
| Alerting.NewestKey | statmon_daemon/alerting.py:192 | a non-empty parameter map has a parameter whose timestamp is the maximum |
| Alerting.GapCandidates | statmon_daemon/alerting.py:107-111 | at most one gap candidate, raised unless the station's newest timestamp is at most `hours` old, of medium severity and keyed by the station and the hours |
| Alerting.GapIffStale | statmon_daemon/alerting.py:107-111 | a station gets a gap alert, keyed by station and gap hours, exactly when every named, numeric reading of it is strictly more than `hours` old; this includes a station with no readings |
| Alerting.Breach | statmon_daemon/alerting.py:130-131 | a value does not breach a rule exactly when it lies within the set bounds, the bounds themselves included; an unset bound imposes nothing |
| Alerting.ThresholdCandidates | statmon_daemon/alerting.py:124-133 | at most one candidate per rule; each is of medium severity and keyed by the station, a parameter that has a latest reading, and that reading's timestamp |
| Alerting.ThresholdCandidatesSpec | statmon_daemon/alerting.py:122-133 | a threshold alert exists exactly for a rule whose parameter has a latest reading below a set minimum or above a set maximum; its key carries that reading's timestamp; parameters with no reading raise nothing |
| Alerting.Fresh | statmon_daemon/alerting.py:96-142 | the guard lets through no more alerts than there are candidates, and none whose key was sent before |
| Alerting.StationCandidates | statmon_daemon/alerting.py:85-142 | a station's candidates all carry its id, number at most two plus one per rule, and use a failure limit of 3 and a gap window of 6 hours unless the station sets a convertible value; a ping-failure candidate needs a positive limit |
| Alerting.PassCandidates | statmon_daemon/alerting.py:85-142 | every candidate of a pass belongs to one of the stations evaluated |
| Alerting.FreshIsDedup | statmon_daemon/alerting.py:98-142 | the alerts sent in a pass come from the candidates, carry no key sent before and no key twice, and their keys are exactly the candidate keys that were not sent before |
| Alerting.FreshAppend | statmon_daemon/alerting.py:85-142 | deduplicating two runs of candidates in sequence is the same as deduplicating their concatenation, with the first run's keys added to the sent set |
| Alerting.SentKeysAreSilent | statmon_daemon/alerting.py:98-105 | candidates whose keys were all sent before cause no send |
| Alerting.RepeatedPassIsSilent | statmon_daemon/alerting.py:98-142 | repeating a pass over the same candidates sends nothing, so a persisting condition alerts once |
| Alerting.DispatchKeepsGuard | statmon_daemon/alerting.py:65 | the sent set is exactly the keys of the alerts sent so far, and no key was sent twice; a pass preserves this |
| Alerting.Fanout | statmon_daemon/alerting.py:248-259 | `_send_alert` calls the Teams sink exactly when a webhook is configured and the email sink exactly when email is configured; a call succeeds exactly when that sink does not raise; there is at most one call per sink, and Teams is called before email |
| Alerting.EmailDespiteTeamsFailure | statmon_daemon/alerting.py:248-259 | when the Teams call raises, the email sink is still called if configured |
| Alerting.OfferStep | statmon_daemon/alerting.py:98-105 | one guarded send leaves everything unchanged for a known key; for a new key it sends the alert, logs it and remembers the key, in line with the dedup specification |
| Alerting.AlertManager.constructor | statmon_daemon/alerting.py:62-65 | the sent-key set starts empty |
| Alerting.AlertManager.SendAlert | statmon_daemon/alerting.py:234-259 | the sink log grows by exactly the fan-out of the alert, and no sink failure escapes |
| Alerting.AlertManager.Offer | statmon_daemon/alerting.py:98-105 | the sent set grows by the key; the alert is dispatched exactly when its key was not already in the set |
| Alerting.AlertManager.CheckPing | statmon_daemon/alerting.py:94-105 | the station's ping-failure candidate, if any, passes through the guard |
| Alerting.AlertManager.CheckGap | statmon_daemon/alerting.py:107-120 | the station's gap candidate, if any, passes through the guard |
| Alerting.AlertManager.CheckRule | statmon_daemon/alerting.py:126-142 | one rule: a parameter without a latest reading is skipped, otherwise its candidate, if any, passes through the guard |
| Alerting.AlertManager.CheckThresholds | statmon_daemon/alerting.py:124-142 | the loop passes the threshold candidates of the station through the guard, in rule order |
| Alerting.AlertManager.EvaluateStation | statmon_daemon/alerting.py:85-142 | the ping, gap and threshold candidates of one station, in that order, pass through the guard |
| Alerting.AlertManager.EvaluateAll | statmon_daemon/alerting.py:85-142 | the loop passes every station's candidates through the guard, in station order |
| Alerting.AlertManager.Run | statmon_daemon/alerting.py:69-144 | without the models nothing changes; otherwise the pass's candidates pass through the guard, and the sent set remains exactly the keys sent, each once |
| Alerting.StreakExample | statmon_daemon/alerting.py:150-162 | fail, fail, fail, success, fail gives a streak of 3, which alerts at limit 3 and not at limit 5 |
| Alerting.EscalatingStreak | statmon_daemon/alerting.py:96-105 | a streak that stays at 3 alerts once over two passes; when it grows to 4 it alerts again under a new key |
| Alerting.GapExample | statmon_daemon/alerting.py:108-111 | with 6 hours, a station with no data gaps; the newest reading one second past the limit gaps, and one exactly at the limit does not |
| Alerting.BreachExample | statmon_daemon/alerting.py:130-131 | with bounds [11.5, 14.5], 11.0 breaches and 12.0 does not; with an unset minimum only the maximum applies |
| ConfigLoader.ValueText | statmon_daemon/config_loader.py:180 | `str(value)` gives the text itself, or "None" for NULL |
| ConfigLoader.KvMap | statmon_daemon/config_loader.py:180 | every row with a non-NULL key puts that key in the map, and every key of the map comes from such a row |
| ConfigLoader.KvMapIsLastValue | statmon_daemon/config_loader.py:180 | a key is in the map exactly when some row with a non-NULL key has it, and its value is that of the last such row |
| ConfigLoader.Strip | statmon_daemon/config_loader.py:190 | the stripped text neither starts nor ends with whitespace, and is no longer than the input |
| ConfigLoader.StripIsTrimmedSlice | statmon_daemon/config_loader.py:190 | strip removes exactly the surrounding whitespace: the result is a slice of the input with only whitespace before and after it |
| ConfigLoader.Lower | statmon_daemon/config_loader.py:190 | lower-casing keeps the length and lower-cases each character |
| ConfigLoader.Privileged | statmon_daemon/config_loader.py:189-190 | the truth test holds only for text whose stripped form is as long as one of "1", "yes" or "true" |
| ConfigLoader.PrivilegedAccepts | statmon_daemon/config_loader.py:189-190 | "1", "true", " Yes\n" and "\tTRUE " count as privileged |
| ConfigLoader.PrivilegedRejects | statmon_daemon/config_loader.py:189-190 | "0", "false", "on", "t rue" and "" do not count as privileged |
| ConfigLoader.Apply | statmon_daemon/config_loader.py:182-193 | a setting whose key is absent keeps its previous value, and the privileged flag changes only to the truth test of the given text |
| ConfigLoader.ApplyStopsAtFirstBadValue | statmon_daemon/config_loader.py:182-193 | a setting takes its new value exactly when its key is present, its conversion succeeds and every earlier conversion succeeded; otherwise it keeps its previous value |
| ConfigLoader.ApplyKv | statmon_daemon/config_loader.py:182-193 | the step-by-step `try` block computes the partial parse |
| ConfigLoader.FirstUsable | statmon_daemon/config_loader.py:170-178 | the chosen table exists and has rows, and every candidate before it is missing or empty; with no choice, every candidate is missing or empty |
| ConfigLoader.LoadPingSettings | statmon_daemon/config_loader.py:164-195 | the loop starts from the defaults and applies the first candidate table that exists and has rows, then stops |
| ConfigLoader.DefaultsWithoutTable | statmon_daemon/config_loader.py:169-195 | when no candidate table exists with rows, the defaults come back unchanged |
| ConfigLoader.LaterTablesIgnored | statmon_daemon/config_loader.py:170-194 | only the first usable table in the order configs, config, settings, app_configs matters; later tables do not change the result |
| ConfigLoader.EmptyTableFallsThrough | statmon_daemon/config_loader.py:170-194 | an empty `configs` table falls through to `config`, and `settings` is then not read |
| ConfigLoader.FilterMapAppend | statmon_daemon/config_loader.py:223-230 | the row loops keep row order: the output for rows a + b is the output for a followed by the output for b |
| ConfigLoader.FilterMapMembers | statmon_daemon/config_loader.py:223-230 | an output entry appears exactly when some row passes the filter and shapes to it |
| ConfigLoader.StationsForPing | statmon_daemon/config_loader.py:223-230 | rows without an address are dropped; the others are kept in order, with the name or "Station {id}" |
| ConfigLoader.PingTargetsWellFormed | statmon_daemon/config_loader.py:224-229 | every ping target has an address and a non-empty name, and comes from a row with that id and address |
| ConfigLoader.FilestoreTasks | statmon_daemon/config_loader.py:298-316 | rows without a filestore path are dropped; parameters are the decoded object, or none when the column is empty or does not decode |
| ConfigLoader.FilestoreTasksWellFormed | statmon_daemon/config_loader.py:298-316 | every task has a path and a name and comes from a row with that id and path; its parameters are the row's decoded object, or empty |
| ConfigLoader.PollTasks | statmon_daemon/config_loader.py:368-386 | rows without an address are dropped; variables are the decoded list, or none |
| ConfigLoader.UndecodableVariablesGiveNone | statmon_daemon/config_loader.py:373-385 | a row whose variables do not decode still yields a task, with no variables |
| FileStoreIngest.TrendDaysOf | statmon_daemon/filestore_ingest.py:74 | the window is 7 days without `trend_days`, the converted value with one, and an exception when `int()` refuses it |
| FileStoreIngest.Kept | statmon_daemon/filestore_ingest.py:79-88 | the kept rows are no more than the rows, and each has a timestamp not before the cutoff and a non-None value for the parameter |
| FileStoreIngest.KeptMembers | statmon_daemon/filestore_ingest.py:79-88 | a row is kept exactly when it has a timestamp no earlier than the cutoff and a non-None value for the parameter |
| FileStoreIngest.WindowIsInclusive | statmon_daemon/filestore_ingest.py:75-82 | a row stamped exactly `trend_days` days before `now` is kept, and one a second older is skipped |
| FileStoreIngest.IngestSpec | statmon_daemon/filestore_ingest.py:78-100 | without the model the row loop never raises and adds nothing; the count never exceeds the number of rows; with the model one reading is added per counted row; every added reading carries the task's station id and the parameter's name |
| FileStoreIngest.IngestParameter | statmon_daemon/filestore_ingest.py:78-100 | the row loop for one parameter computes that parameter's outcome |
| FileStoreIngest.IngestMatchesKept | statmon_daemon/filestore_ingest.py:90-100 | the reported count equals the number of kept rows; with the model available, exactly one reading is added per kept row, in file order, carrying its task's station id, the parameter's name, the row's value and the row's own timestamp; without the model nothing is added |
| FileStoreIngest.NoModelNeverRaises | statmon_daemon/filestore_ingest.py:90-92 | without the Reading model the loop only counts, and never raises |
| FileStoreIngest.RaisesIffTimestampParameter | statmon_daemon/filestore_ingest.py:83-97 | with the model available, a parameter raises exactly when it is named "timestamp" and some row lies in its window, because `float()` is then applied to the row's datetime |
| FileStoreIngest.ParamStep | statmon_daemon/filestore_ingest.py:73-102 | one parameter: when it raises nothing new is added or logged; otherwise its readings carry the task's station id and its one report carries the station id and the parameter's name |
| FileStoreIngest.ParamsSpec | statmon_daemon/filestore_ingest.py:73-102 | the readings and reports of a task's parameters all carry the task's station id, and there is at most one report per parameter |
| FileStoreIngest.TaskSpec | statmon_daemon/filestore_ingest.py:51-102 | a task with a missing path, no file or no rows adds and logs nothing; every reading and report of a task carries its station id |
| FileStoreIngest.PassSpec | statmon_daemon/filestore_ingest.py:51-102 | only a pass with tasks can fail, and every reading added and every report logged belongs to the station of one of the pass's tasks |
| FileStoreIngest.IngestTask | statmon_daemon/filestore_ingest.py:58-102 | a task with a missing path, no file or no rows does nothing; otherwise its parameters are processed in order, stopping at the first that raises |
| FileStoreIngest.EveryParameterIngested | statmon_daemon/filestore_ingest.py:73-100 | parameters are filtered independently over the same rows: a completed task has a reading for every row kept under any of its parameters, so one row can feed several parameters |
| FileStoreIngest.BadWindowNeedsRows | statmon_daemon/filestore_ingest.py:58-75 | a `trend_days` that `int()` refuses, on a parameter at any position, fails its task exactly when that task has rows to filter |
| FileStoreIngest.DefaultWindowReported | statmon_daemon/filestore_ingest.py:73-102 | in a task that completes, a parameter without `trend_days`, at any position, is reported with a 7-day window and the count of rows kept since `now - 7` days |
| FileStoreIngest.Store.Commit | statmon_daemon/filestore_ingest.py:104-105 | committing appends the pending readings to the table in the order they were added |
| FileStoreIngest.Run | statmon_daemon/filestore_ingest.py:37-114 | with no tasks the pass stops at once; otherwise it commits every reading of every task exactly when nothing raises, and when something raises it rolls back the whole pass, earlier tasks included; the reports logged are those of the parameters finished |

## Left out

- The job functions themselves, ICMP pinging, logger polling, the database connection, schema probing and SQL text are not part of this model. They are I/O; their results are the inputs described above.
- The daemon's host loop is not part of this model: logging setup, the endless tick loop and its sleep. It registers the components every 5, 15, 10 and 5 minutes.
- Wall-clock time is not modelled: `time.time()` and `datetime.utcnow()` are the `now` parameters. In the ingest pass, each task reads its own clock after parsing its file; this is the `now` carried by that task's source.
- Scheduling.Scheduler.RunPending: times are whole seconds rather than floating-point seconds.
- Scheduling.Scheduler.RunPending: only `Exception` is swallowed. A `BaseException` such as `KeyboardInterrupt` or `SystemExit` still stamps the job, then ends the tick, so later due jobs are not attempted. The model's `raises` set covers only swallowed exceptions.
- Alerting.AlertManager.Run: alert titles, bodies and the severity text are not modelled.
- Alerting.AlertManager.Run: an exception from the store queries, which leaves `run`, is not modelled.
- Alerting.AlertManager.Run: a gap setting beyond the range of `timedelta` (about 24·10⁹ hours) makes `timedelta(hours=...)` raise `OverflowError`. That ends the pass, and later stations get no alerts. `Alerting.GapCandidates` always evaluates.
- Alerting.AlertManager.Run: the seven-day look-back of the readings query is SQL; the readings are given as the query's result.
- Alerting.AlertManager.Run: the sinks (`_notify_teams`, `_notify_email`, `_load_notify_settings`) are opaque, and only whether each one raises is modelled. Their source is not part of this model.
- Alerting.GetThresholds: the bound conversion `_to_float_or_none` is not part of this model, so each bound is given already converted.
- Alerting.GetThresholds: a JSON value that decodes to something other than an object is not modelled.
- ConfigLoader.Lower: only ASCII capitals are lower-cased. No other character lower-cases to a character of "1", "true" or "yes", so the privileged test is unaffected.
- ConfigLoader.Privileged: its contract bounds only the length of the stripped text; which texts the truth test accepts is shown on examples by `ConfigLoader.PrivilegedAccepts` and `ConfigLoader.PrivilegedRejects`.
- ConfigLoader.LoadPingSettings: the ping interval and timeout are `real`, and a non-finite `float()` result ("inf", "nan") is not represented.
- ConfigLoader.LoadPingSettings: keys that are not text are taken as already rendered by `str()`.
- ConfigLoader.FilestoreTasks: JSON decoding is given by its outcome. An `ingest_parameters` value that decodes to something other than an object is not modelled.
- ConfigLoader.PollTasks: JSON decoding is given by its outcome. A `poll_variables` value that decodes to something other than a list, or a non-text column that `list()` accepts, is not modelled.
- FileStoreIngest.Run: a failure of `get_session()` and the closing of the session are not modelled.
- FileStoreIngest.Run: an overflow of the date arithmetic for huge `trend_days` is not modelled.
- FileStoreIngest.Run: the per-task log lines for a missing path, file or rows are not modelled.
- FileStoreIngest.Run: finding the newest file (`_read_latest_file`) and parsing its CSV rows (`_parse_file_rows`) are not part of this model; their result is a task's source.
