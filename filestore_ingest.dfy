/**
 * One filestore ingest pass: for every task with a readable data file, and
 * for every selected parameter of it, the rows inside the parameter's trend
 * window that carry a value are added to the session as readings and
 * counted; the session is committed at the end, or rolled back when
 * anything raises on the way.
 *
 * The filesystem is given per task as what the pass found there (no path,
 * no file, or the parsed rows together with the clock reading taken right
 * after parsing). Timestamps are whole seconds. Whether the Reading model
 * could be imported is the `modelAvailable` parameter.
 */
module FileStoreIngest {
  import opened Common
  import opened ConfigLoader

  const SECONDS_PER_DAY := 86400
  /** The trend window, in days, of a parameter without `trend_days`. */
  const DEFAULT_TREND_DAYS := 7

  /** A parsed row: its timestamp and its numeric columns (None for a NULL value). */
  datatype FileRow = FileRow(timestamp: Option<int>, values: map<string, Option<real>>)

  /** What `r[param]` finds: no key, None, a number, or (for the key "timestamp") the row's datetime. */
  datatype Field = Missing | Null | Num(v: real) | Stamp(t: int)

  /** The row as the dict it is in the source: the timestamp lives under the key "timestamp". */
  function FieldOf(r: FileRow, param: string): Field
  {
    if param == "timestamp" then (if r.timestamp.Some? then Stamp(r.timestamp.value) else Missing)
    else if param !in r.values then Missing
    else if r.values[param].None? then Null
    else Num(r.values[param].value)
  }

  /** What the pass finds at a task's source path. */
  datatype Source = PathMissing | NoFiles | Parsed(rows: seq<FileRow>, now: int)

  /** The window a parameter's `trend_days` selects: None when `int()` raises on it. */
  function TrendDaysOf(s: TrendSetting): (r: Option<int>)
    ensures s.NoTrendDays? ==> r == Some(DEFAULT_TREND_DAYS)
    ensures s.TrendDays? ==> r == Some(s.days)
    ensures s.BadTrendDays? <==> r.None?
  {
    match s
    case NoTrendDays => Some(DEFAULT_TREND_DAYS)
    case TrendDays(d) => Some(d)
    case BadTrendDays => None
  }

  /** The oldest timestamp still inside a window of `days` days ending at `now`. */
  function Cutoff(now: int, days: int): int
  {
    now - days * SECONDS_PER_DAY
  }

  /** A row passes the three filters: it has a timestamp not before the cutoff and a non-None value for the parameter. */
  predicate Counted(r: FileRow, param: string, cutoff: int)
  {
    r.timestamp.Some? && r.timestamp.value >= cutoff && (FieldOf(r, param).Num? || FieldOf(r, param).Stamp?)
  }

  /** The rows counted for a parameter, in file order. */
  function Kept(rows: seq<FileRow>, param: string, cutoff: int): (k: seq<FileRow>)
    ensures |k| <= |rows|
    ensures forall j :: 0 <= j < |k| ==> Counted(k[j], param, cutoff)
  {
    if rows == [] then []
    else
      var r := rows[|rows| - 1];
      Kept(rows[..|rows| - 1], param, cutoff) + (if Counted(r, param, cutoff) then [r] else [])
  }

  /** The outcome of one parameter: the readings added to the session and the count, or an exception. */
  datatype Ingested = Ingested(added: seq<Reading>, count: nat) | Raised

  /**
   * The inner row loop for one parameter, as a value. With the model
   * available each counted row becomes a reading; `float()` raises on the
   * datetime a parameter named "timestamp" finds.
   */
  function IngestSpec(sid: int, param: string, rows: seq<FileRow>, cutoff: int, modelAvailable: bool): (r: Ingested)
    ensures !modelAvailable ==> r.Ingested? && r.added == []
    ensures r.Ingested? ==> r.count <= |rows|
    ensures r.Ingested? && modelAvailable ==> |r.added| == r.count
    ensures r.Ingested? ==> forall x :: x in r.added ==> x.stationId == sid && x.name == Some(param)
  {
    if rows == [] then Ingested([], 0)
    else
      var prev := IngestSpec(sid, param, rows[..|rows| - 1], cutoff, modelAvailable);
      var r := rows[|rows| - 1];
      if prev.Raised? || !Counted(r, param, cutoff) then prev
      else if !modelAvailable then Ingested(prev.added, prev.count + 1)
      else match FieldOf(r, param)
        case Num(v) => Ingested(prev.added + [Reading(sid, Some(param), Some(v), r.timestamp.value)], prev.count + 1)
        case _ => Raised
  }

  /**
   * `for r in rows` for one parameter: rows without a timestamp, before the
   * cutoff, without the parameter or with a None value are skipped; the
   * others are added (when the model is available) and counted.
   */
  method IngestParameter(sid: int, param: string, rows: seq<FileRow>, cutoff: int, modelAvailable: bool)
    returns (res: Ingested)
    ensures res == IngestSpec(sid, param, rows, cutoff, modelAvailable)
  {
    var added: seq<Reading> := [];
    var count := 0;
    for i := 0 to |rows|
      invariant IngestSpec(sid, param, rows[..i], cutoff, modelAvailable) == Ingested(added, count)
    {
      assert rows[..i + 1][..i] == rows[..i];
      var r := rows[i];
      var ts := r.timestamp;
      if ts.None? || ts.value < cutoff {
        continue;
      }
      var value := FieldOf(r, param);
      if value.Missing? {
        continue;
      }
      if value.Null? {
        continue;
      }
      if modelAvailable {
        if !value.Num? {
          RaisedSticks(sid, param, rows, cutoff, modelAvailable, i + 1);
          return Raised;
        }
        added := added + [Reading(sid, Some(param), Some(value.v), ts.value)];
      }
      count := count + 1;
    }
    assert rows[..|rows|] == rows;
    res := Ingested(added, count);
  }

  /** Once a row has raised, the rest of the rows do not matter. */
  lemma {:induction false} RaisedSticks(sid: int, param: string, rows: seq<FileRow>, cutoff: int, modelAvailable: bool, i: nat)
    requires i <= |rows|
    requires IngestSpec(sid, param, rows[..i], cutoff, modelAvailable).Raised?
    ensures IngestSpec(sid, param, rows, cutoff, modelAvailable).Raised?
    decreases |rows| - i
  {
    if i < |rows| {
      assert rows[..i + 1][..i] == rows[..i];
      RaisedSticks(sid, param, rows, cutoff, modelAvailable, i + 1);
    } else {
      assert rows[..i] == rows;
    }
  }

  /** Exactly the rows that pass the filters are counted. */
  lemma {:induction false} KeptMembers(rows: seq<FileRow>, param: string, cutoff: int, r: FileRow)
    ensures r in Kept(rows, param, cutoff) <==> r in rows && Counted(r, param, cutoff)
  {
    if rows != [] {
      var init := rows[..|rows| - 1];
      KeptMembers(init, param, cutoff, r);
      assert rows == init + [rows[|rows| - 1]];
    }
  }

  /**
   * The reported count is the number of rows that pass the filters; with
   * the model available each of them adds a reading with its task's station,
   * the parameter's name, the row's value and the row's own timestamp, in
   * file order; without it nothing is added and nothing raises.
   */
  lemma {:induction false} IngestMatchesKept(sid: int, param: string, rows: seq<FileRow>, cutoff: int, modelAvailable: bool)
    requires IngestSpec(sid, param, rows, cutoff, modelAvailable).Ingested?
    ensures var res := IngestSpec(sid, param, rows, cutoff, modelAvailable);
      var k := Kept(rows, param, cutoff);
      && res.count == |k|
      && (!modelAvailable ==> res.added == [])
      && (modelAvailable ==> |res.added| == |k|)
      && (modelAvailable ==> forall j :: 0 <= j < |k| ==>
            (FieldOf(k[j], param).Num? &&
             res.added[j] == Reading(sid, Some(param), Some(FieldOf(k[j], param).v), k[j].timestamp.value)))
  {
    if rows != [] {
      var init := rows[..|rows| - 1];
      IngestMatchesKept(sid, param, init, cutoff, modelAvailable);
    }
  }

  /** Without the model nothing raises: the rows are only counted. */
  lemma {:induction false} NoModelNeverRaises(sid: int, param: string, rows: seq<FileRow>, cutoff: int)
    ensures IngestSpec(sid, param, rows, cutoff, false) == Ingested([], |Kept(rows, param, cutoff)|)
  {
    if rows != [] {
      NoModelNeverRaises(sid, param, rows[..|rows| - 1], cutoff);
    }
  }

  /**
   * With the model available, a parameter raises exactly when it is named
   * "timestamp" and some row lies inside its window: `float()` is then
   * applied to the row's datetime.
   */
  lemma {:induction false} RaisesIffTimestampParameter(sid: int, param: string, rows: seq<FileRow>, cutoff: int)
    ensures IngestSpec(sid, param, rows, cutoff, true).Raised?
      <==> param == "timestamp" && exists r :: r in rows && r.timestamp.Some? && r.timestamp.value >= cutoff
  {
    if rows != [] {
      var init := rows[..|rows| - 1];
      var last := rows[|rows| - 1];
      RaisesIffTimestampParameter(sid, param, init, cutoff);
      assert rows == init + [last];
      if param == "timestamp" && exists r :: r in rows && r.timestamp.Some? && r.timestamp.value >= cutoff {
        var r :| r in rows && r.timestamp.Some? && r.timestamp.value >= cutoff;
        assert r in init || r == last;
      }
    }
  }

  /** The trend window includes its boundary: a row stamped exactly `trend_days` days before `now` counts, one a second older does not. */
  lemma WindowIsInclusive(now: int, days: int, param: string, v: real)
    requires param != "timestamp"
    ensures var vals := map[param := Some(v)];
      Counted(FileRow(Some(now - days * 86400), vals), param, Cutoff(now, days))
      && !Counted(FileRow(Some(now - days * 86400 - 1), vals), param, Cutoff(now, days))
  {
  }

  // ---------------------------------------------------------------------
  // One task and one pass
  // ---------------------------------------------------------------------

  /** One `logger.info` line per finished parameter: station, parameter, count and window. */
  datatype Report = Report(stationId: int, param: string, count: nat, trendDays: int)

  /** What the pass has done so far: readings added to the session, reports logged, and whether something raised. */
  datatype Progress = Progress(readings: seq<Reading>, reports: seq<Report>, failed: bool)

  /** One parameter of a task: its window, then its row loop. */
  function ParamStep(sid: int, param: (string, TrendSetting), rows: seq<FileRow>, now: int,
                     modelAvailable: bool, acc: Progress): (r: Progress)
    ensures r.failed ==> r.readings == acc.readings && r.reports == acc.reports
    ensures forall x :: x in r.readings ==> x in acc.readings || x.stationId == sid
    ensures forall x :: x in r.reports ==> x in acc.reports || (x.stationId == sid && x.param == param.0)
  {
    var days := TrendDaysOf(param.1);
    if days.None? then acc.(failed := true)
    else
      var res := IngestSpec(sid, param.0, rows, Cutoff(now, days.value), modelAvailable);
      if res.Raised? then acc.(failed := true)
      else Progress(acc.readings + res.added, acc.reports + [Report(sid, param.0, res.count, days.value)], false)
  }

  /** The parameters of one task, in order, stopping at the first that raises. */
  function ParamsSpec(sid: int, params: seq<(string, TrendSetting)>, rows: seq<FileRow>, now: int,
                      modelAvailable: bool): (r: Progress)
    ensures forall x :: x in r.readings ==> x.stationId == sid
    ensures forall x :: x in r.reports ==> x.stationId == sid
    ensures |r.reports| <= |params|
  {
    if params == [] then Progress([], [], false)
    else
      var prev := ParamsSpec(sid, params[..|params| - 1], rows, now, modelAvailable);
      if prev.failed then prev else ParamStep(sid, params[|params| - 1], rows, now, modelAvailable, prev)
  }

  /** One task: nothing when its path, file or rows are missing, else its parameters. */
  function TaskSpec(task: FilestoreTask, src: Source, modelAvailable: bool): (r: Progress)
    ensures forall x :: x in r.readings ==> x.stationId == task.stationId
    ensures forall x :: x in r.reports ==> x.stationId == task.stationId
    ensures !(src.Parsed? && src.rows != []) ==> r == Progress([], [], false)
  {
    if src.Parsed? && src.rows != [] then ParamsSpec(task.stationId, task.parameters, src.rows, src.now, modelAvailable)
    else Progress([], [], false)
  }

  /** The tasks of a pass, in order, stopping at the first that raises. */
  function PassSpec(tasks: seq<FilestoreTask>, sources: seq<Source>, modelAvailable: bool): (r: Progress)
    requires |sources| == |tasks|
    ensures r.failed ==> tasks != []
    ensures forall x :: x in r.readings ==> exists t :: t in tasks && t.stationId == x.stationId
    ensures forall x :: x in r.reports ==> exists t :: t in tasks && t.stationId == x.stationId
  {
    if tasks == [] then Progress([], [], false)
    else
      var n := |tasks| - 1;
      var prev := PassSpec(tasks[..n], sources[..n], modelAvailable);
      if prev.failed then prev
      else
        var t := TaskSpec(tasks[n], sources[n], modelAvailable);
        Progress(prev.readings + t.readings, prev.reports + t.reports, t.failed)
  }

  /** The loop over a task's parameters. */
  method IngestTask(task: FilestoreTask, src: Source, modelAvailable: bool) returns (acc: Progress)
    ensures acc == TaskSpec(task, src, modelAvailable)
  {
    acc := Progress([], [], false);
    if !src.Parsed? || src.rows == [] {
      return;
    }
    var rows, now, params := src.rows, src.now, task.parameters;
    for i := 0 to |params|
      invariant acc == ParamsSpec(task.stationId, params[..i], rows, now, modelAvailable)
      invariant !acc.failed
    {
      assert params[..i + 1][..i] == params[..i];
      var (name, setting) := params[i];
      var days := TrendDaysOf(setting);
      if days.None? {
        FailedSticks(task.stationId, params, rows, now, modelAvailable, i + 1);
        return acc.(failed := true);
      }
      var res := IngestParameter(task.stationId, name, rows, Cutoff(now, days.value), modelAvailable);
      if res.Raised? {
        FailedSticks(task.stationId, params, rows, now, modelAvailable, i + 1);
        return acc.(failed := true);
      }
      acc := Progress(acc.readings + res.added, acc.reports + [Report(task.stationId, name, res.count, days.value)], false);
    }
    assert params[..|params|] == params;
  }

  /** Once a parameter has raised, that task's outcome is fixed. */
  lemma {:induction false} FailedSticks(sid: int, params: seq<(string, TrendSetting)>, rows: seq<FileRow>, now: int,
                                        modelAvailable: bool, i: nat)
    requires i <= |params|
    requires ParamsSpec(sid, params[..i], rows, now, modelAvailable).failed
    ensures ParamsSpec(sid, params, rows, now, modelAvailable) == ParamsSpec(sid, params[..i], rows, now, modelAvailable)
    decreases |params| - i
  {
    if i < |params| {
      assert params[..i + 1][..i] == params[..i];
      FailedSticks(sid, params, rows, now, modelAvailable, i + 1);
    } else {
      assert params[..i] == params;
    }
  }

  /** The readings table the session commits to. */
  class Store {
    var rows: seq<Reading>

    constructor ()
      ensures rows == []
    {
      rows := [];
    }

    /** `session.commit()`: the pending readings become rows, in the order they were added. */
    method Commit(pending: seq<Reading>)
      modifies this
      ensures rows == old(rows) + pending
    {
      rows := rows + pending;
    }
  }

  /** How a pass ended: no tasks configured, committed, or rolled back. */
  datatype PassEnd = NoTasks | Committed | RolledBack

  /**
   * `FileStoreIngest.run`: with no tasks it stops at once; otherwise it
   * ingests the tasks in order and commits every reading of the pass, or,
   * when something raised, rolls the whole pass back, earlier tasks
   * included.
   */
  method Run(tasks: seq<FilestoreTask>, sources: seq<Source>, modelAvailable: bool, store: Store)
    returns (end: PassEnd, reports: seq<Report>)
    requires |sources| == |tasks|
    modifies store
    ensures tasks == [] ==> end == NoTasks && reports == []
    ensures tasks != [] ==> reports == PassSpec(tasks, sources, modelAvailable).reports
    ensures tasks != [] ==> (end == RolledBack <==> PassSpec(tasks, sources, modelAvailable).failed)
    ensures tasks != [] ==> (end == Committed <==> !PassSpec(tasks, sources, modelAvailable).failed)
    ensures end == Committed ==> store.rows == old(store.rows) + PassSpec(tasks, sources, modelAvailable).readings
    ensures end != Committed ==> store.rows == old(store.rows)
  {
    reports := [];
    if tasks == [] {
      return NoTasks, reports;
    }
    var pending: seq<Reading> := [];
    for i := 0 to |tasks|
      invariant PassSpec(tasks[..i], sources[..i], modelAvailable) == Progress(pending, reports, false)
      invariant store.rows == old(store.rows)
    {
      assert tasks[..i + 1][..i] == tasks[..i] && sources[..i + 1][..i] == sources[..i];
      var t := IngestTask(tasks[i], sources[i], modelAvailable);
      pending, reports := pending + t.readings, reports + t.reports;
      if t.failed {
        PassFailedSticks(tasks, sources, modelAvailable, i + 1);
        return RolledBack, reports;
      }
    }
    assert tasks[..|tasks|] == tasks && sources[..|sources|] == sources;
    store.Commit(pending);
    end := Committed;
  }

  lemma {:induction false} PassFailedSticks(tasks: seq<FilestoreTask>, sources: seq<Source>, modelAvailable: bool, i: nat)
    requires |sources| == |tasks| && i <= |tasks|
    requires PassSpec(tasks[..i], sources[..i], modelAvailable).failed
    ensures PassSpec(tasks, sources, modelAvailable) == PassSpec(tasks[..i], sources[..i], modelAvailable)
    decreases |tasks| - i
  {
    if i < |tasks| {
      assert tasks[..i + 1][..i] == tasks[..i] && sources[..i + 1][..i] == sources[..i];
      PassFailedSticks(tasks, sources, modelAvailable, i + 1);
    } else {
      assert tasks[..i] == tasks && sources[..i] == sources;
    }
  }

  // ---------------------------------------------------------------------
  // Properties of a task
  // ---------------------------------------------------------------------

  /**
   * Parameters are filtered independently: when a task completes, every
   * row counted for any of its parameters has added a reading under that
   * parameter's name, so one row can feed several parameters.
   */
  lemma {:induction false} EveryParameterIngested(sid: int, params: seq<(string, TrendSetting)>, rows: seq<FileRow>,
                                                  now: int, k: nat, r: FileRow, days: int)
    requires !ParamsSpec(sid, params, rows, now, true).failed
    requires k < |params| && TrendDaysOf(params[k].1) == Some(days)
    requires r in rows && Counted(r, params[k].0, Cutoff(now, days)) && FieldOf(r, params[k].0).Num?
    ensures Reading(sid, Some(params[k].0), Some(FieldOf(r, params[k].0).v), r.timestamp.value)
      in ParamsSpec(sid, params, rows, now, true).readings
  {
    var n := |params| - 1;
    var prev := ParamsSpec(sid, params[..n], rows, now, true);
    if k < n {
      EveryParameterIngested(sid, params[..n], rows, now, k, r, days);
    } else {
      var res := IngestSpec(sid, params[k].0, rows, Cutoff(now, days), true);
      IngestMatchesKept(sid, params[k].0, rows, Cutoff(now, days), true);
      KeptMembers(rows, params[k].0, Cutoff(now, days), r);
      var kept := Kept(rows, params[k].0, Cutoff(now, days));
      var j :| 0 <= j < |kept| && kept[j] == r;
      assert res.added[j] in res.added;
    }
  }

  /**
   * A `trend_days` that `int()` refuses, on any parameter, rolls back the
   * pass only when the task has rows to filter: a task whose path, file or
   * rows are missing never reads its parameters.
   */
  lemma BadWindowNeedsRows(task: FilestoreTask, src: Source, modelAvailable: bool, k: nat)
    requires k < |task.parameters| && task.parameters[k].1.BadTrendDays?
    ensures TaskSpec(task, src, modelAvailable).failed <==> src.Parsed? && src.rows != []
  {
    if src.Parsed? && src.rows != [] {
      BadParamFails(task.stationId, task.parameters, src.rows, src.now, modelAvailable, k);
    }
  }

  /** The parameters before a refused `trend_days` either raise themselves or reach it, so the task fails either way. */
  lemma {:induction false} BadParamFails(sid: int, params: seq<(string, TrendSetting)>, rows: seq<FileRow>, now: int,
                                         modelAvailable: bool, k: nat)
    requires k < |params| && params[k].1.BadTrendDays?
    ensures ParamsSpec(sid, params, rows, now, modelAvailable).failed
  {
    var n := |params| - 1;
    if k < n {
      assert params[..n][k] == params[k];
      BadParamFails(sid, params[..n], rows, now, modelAvailable, k);
    }
  }

  /**
   * A parameter without `trend_days`, at any position of a task that
   * completes, is reported with the seven-day window and the count of its
   * rows kept since `now - 7` days.
   */
  lemma {:induction false} DefaultWindowReported(sid: int, params: seq<(string, TrendSetting)>, rows: seq<FileRow>,
                                                 now: int, modelAvailable: bool, k: nat)
    requires k < |params| && params[k].1.NoTrendDays?
    requires !ParamsSpec(sid, params, rows, now, modelAvailable).failed
    ensures Report(sid, params[k].0, |Kept(rows, params[k].0, now - 7 * SECONDS_PER_DAY)|, 7)
      in ParamsSpec(sid, params, rows, now, modelAvailable).reports
  {
    var n := |params| - 1;
    if k < n {
      assert params[..n][k] == params[k];
      DefaultWindowReported(sid, params[..n], rows, now, modelAvailable, k);
    } else {
      IngestMatchesKept(sid, params[k].0, rows, Cutoff(now, 7), modelAvailable);
    }
  }
}
