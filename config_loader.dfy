/**
 * The shaping half of the StatMon configuration loader: choosing the
 * key/value table that holds the ping settings and parsing them, and the
 * row loops that turn `stations` rows into ping targets, filestore ingest
 * tasks and logger poll tasks.
 *
 * The database is given as values: a key/value table is present or absent
 * and holds the rows its `SELECT key, value` returns (a select that fails
 * returns no rows, as the loader treats it); a station query is the rows it
 * returns, already filtered by the SQL. Python's `int()` and `float()` on
 * text are the `Parsers` parameter; JSON decoding is given by its outcome.
 */
module ConfigLoader {
  import opened Common

  // ---------------------------------------------------------------------
  // Ping settings
  // ---------------------------------------------------------------------

  datatype PingSettings = PingSettings(count: int, interval: real, timeout: real, privileged: bool)

  /** `DEFAULT_PING` */
  const DEFAULT_PING := PingSettings(1, 0.8, 2.0, false)

  /** The key/value tables that may hold the settings, in the order they are tried. */
  const CONFIG_TABLES: seq<string> := ["configs", "config", "settings", "app_configs"]

  /** One row of a key/value table; `None` is a NULL column. */
  datatype KvRow = KvRow(key: Option<string>, value: Option<string>)

  /** `int(text)` and `float(text)`: a value, or None when the conversion raises. */
  datatype Parsers = Parsers(toInt: string -> Option<int>, toFloat: string -> Option<real>)

  /** The tables of the database that exist, each with the rows its key/value select returns. */
  type Tables = map<string, seq<KvRow>>

  /** `str(value)`: the text itself, or "None" for NULL. */
  function ValueText(v: Option<string>): (r: string)
    ensures v.Some? ==> r == v.value
    ensures v.None? ==> r == "None"
  {
    if v.Some? then v.value else "None"
  }

  /** The dict comprehension over the rows: rows with a NULL key are skipped, a later row overrides an earlier one. */
  function KvMap(rows: seq<KvRow>): (m: map<string, string>)
    ensures forall i :: 0 <= i < |rows| && rows[i].key.Some? ==> rows[i].key.value in m
    ensures forall k :: k in m ==> exists i :: 0 <= i < |rows| && rows[i].key == Some(k)
  {
    if rows == [] then map[]
    else
      var m := KvMap(rows[..|rows| - 1]);
      var r := rows[|rows| - 1];
      if r.key.None? then m else m[r.key.value := ValueText(r.value)]
  }

  /** An independent reading of the comprehension: the value of the last row whose key is `k`. */
  function LastValue(rows: seq<KvRow>, k: string): Option<string>
  {
    if rows == [] then None
    else
      var r := rows[|rows| - 1];
      if r.key == Some(k) then Some(ValueText(r.value)) else LastValue(rows[..|rows| - 1], k)
  }

  /** Rows with a NULL key are ignored and, for a repeated key, the last row wins. */
  lemma {:induction false} KvMapIsLastValue(rows: seq<KvRow>, k: string)
    ensures k in KvMap(rows) <==> LastValue(rows, k).Some?
    ensures k in KvMap(rows) ==> KvMap(rows)[k] == LastValue(rows, k).value
  {
    if rows != [] {
      KvMapIsLastValue(rows[..|rows| - 1], k);
    }
  }

  /** The whitespace `str.strip()` removes: the characters Python's `str.isspace` accepts. */
  predicate IsSpace(c: char)
  {
    c == ' ' || ('\t' <= c <= '\r') || ('\U{1c}' <= c <= '\U{1f}') || c == '\U{85}' || c == '\U{a0}'
    || c == '\U{1680}' || ('\U{2000}' <= c <= '\U{200a}') || c == '\U{2028}' || c == '\U{2029}'
    || c == '\U{202f}' || c == '\U{205f}' || c == '\U{3000}'
  }

  /** `s.strip()` with no argument. */
  function Strip(s: string): (r: string)
    ensures |r| <= |s|
    ensures r == [] || (!IsSpace(r[0]) && !IsSpace(r[|r| - 1]))
    decreases |s|
  {
    if s == [] then s
    else if IsSpace(s[0]) then Strip(s[1..])
    else if IsSpace(s[|s| - 1]) then Strip(s[..|s| - 1])
    else s
  }

  /**
   * `strip()` removes exactly the surrounding whitespace: the result is the
   * slice `s[i..j]` with only whitespace before `i` and after `j` (and, by
   * the contract of `Strip`, no whitespace at either end of the slice).
   */
  lemma {:induction false} StripIsTrimmedSlice(s: string) returns (i: nat, j: nat)
    ensures i <= j <= |s| && Strip(s) == s[i..j]
    ensures forall k :: 0 <= k < i ==> IsSpace(s[k])
    ensures forall k :: j <= k < |s| ==> IsSpace(s[k])
    decreases |s|
  {
    if s == [] {
      i, j := 0, 0;
    } else if IsSpace(s[0]) {
      var i', j' := StripIsTrimmedSlice(s[1..]);
      i, j := i' + 1, j' + 1;
      SpaceBefore(s, s[1..], i', j');
    } else if IsSpace(s[|s| - 1]) {
      i, j := StripIsTrimmedSlice(s[..|s| - 1]);
      SpaceAfter(s, s[..|s| - 1], i, j);
    } else {
      i, j := 0, |s|;
    }
  }

  /** A whitespace character in front of a trimmed slice of the rest extends the leading whitespace by one. */
  lemma SpaceBefore(s: string, t: string, i: nat, j: nat)
    requires s != [] && t == s[1..] && IsSpace(s[0]) && i <= j <= |t|
    requires forall k :: 0 <= k < i ==> IsSpace(t[k])
    requires forall k :: j <= k < |t| ==> IsSpace(t[k])
    ensures t[i..j] == s[i + 1..j + 1]
    ensures forall k :: 0 <= k < i + 1 ==> IsSpace(s[k])
    ensures forall k :: j + 1 <= k < |s| ==> IsSpace(s[k])
  {
    assert forall k :: 1 <= k < |s| ==> s[k] == t[k - 1];
  }

  /** A whitespace character behind a trimmed slice of the rest extends the trailing whitespace by one. */
  lemma SpaceAfter(s: string, t: string, i: nat, j: nat)
    requires s != [] && t == s[..|s| - 1] && IsSpace(s[|s| - 1]) && i <= j <= |t|
    requires forall k :: 0 <= k < i ==> IsSpace(t[k])
    requires forall k :: j <= k < |t| ==> IsSpace(t[k])
    ensures t[i..j] == s[i..j]
    ensures forall k :: 0 <= k < i ==> IsSpace(s[k])
    ensures forall k :: j <= k < |s| ==> IsSpace(s[k])
  {
    assert forall k :: 0 <= k < |t| ==> s[k] == t[k];
  }

  /** `c.lower()` for an ASCII capital; every other character is left as it is. */
  function LowerChar(c: char): char
  {
    if 'A' <= c <= 'Z' then (c as int + 32) as char else c
  }

  /** `s.lower()`, character by character. */
  function Lower(s: string): (r: string)
    ensures |r| == |s|
    ensures forall i :: 0 <= i < |s| ==> r[i] == LowerChar(s[i])
  {
    if s == [] then [] else [LowerChar(s[0])] + Lower(s[1..])
  }

  /** The `PING_PRIVILEGED` truth test. */
  predicate Privileged(v: string): (b: bool)
    ensures b ==> |Strip(v)| == 1 || |Strip(v)| == 3 || |Strip(v)| == 4
  {
    Lower(Strip(v)) in {"1", "true", "yes"}
  }

  /** Surrounding whitespace and letter case do not change the truth test. */
  lemma PrivilegedAccepts()
    ensures Privileged("1") && Privileged("true") && Privileged(" Yes\n") && Privileged("\tTRUE ")
  {
    StripYes();
    StripTrue();
    assert Lower("Yes") == "yes";
    assert Lower("TRUE") == "true";
    assert Strip("1") == "1" && Lower("1") == "1";
    assert Strip("true") == "true" && Lower("true") == "true";
  }

  lemma StripYes()
    ensures Strip(" Yes\n") == "Yes"
  {
    assert " Yes\n"[1..] == "Yes\n";
    assert "Yes\n"[..3] == "Yes";
  }

  lemma StripTrue()
    ensures Strip("\tTRUE ") == "TRUE"
  {
    assert "\tTRUE "[1..] == "TRUE ";
    assert "TRUE "[..4] == "TRUE";
  }

  /** Other words, and inner whitespace, read as false. */
  lemma PrivilegedRejects()
    ensures !Privileged("0") && !Privileged("false") && !Privileged("on") && !Privileged("t rue") && !Privileged("")
  {
    Unpadded("0");
    Unpadded("false");
    Unpadded("on");
    Unpadded("t rue");
    assert Lower("0") == "0";
  }

  /** A string with no whitespace at either end is its own strip. */
  lemma Unpadded(s: string)
    requires s == [] || (!IsSpace(s[0]) && !IsSpace(s[|s| - 1]))
    ensures Strip(s) == s
  {
  }

  /**
   * The `try` block: each present key is converted in the order count,
   * interval, timeout, privileged; the first conversion that raises ends
   * the block, keeping what was set before it.
   */
  function Apply(cfg: PingSettings, kv: map<string, string>, p: Parsers): (r: PingSettings)
    ensures "PING_COUNT" !in kv ==> r.count == cfg.count
    ensures "PING_INTERVAL_SEC" !in kv ==> r.interval == cfg.interval
    ensures "PING_TIMEOUT_SEC" !in kv ==> r.timeout == cfg.timeout
    ensures "PING_PRIVILEGED" !in kv ==> r.privileged == cfg.privileged
    ensures r.privileged != cfg.privileged ==> r.privileged == Privileged(kv["PING_PRIVILEGED"])
  {
    var c1 := if "PING_COUNT" in kv then (var n := p.toInt(kv["PING_COUNT"]);
      if n.None? then None else Some(cfg.(count := n.value))) else Some(cfg);
    if c1.None? then cfg
    else
      var c2 := if "PING_INTERVAL_SEC" in kv then (var x := p.toFloat(kv["PING_INTERVAL_SEC"]);
        if x.None? then None else Some(c1.value.(interval := x.value))) else c1;
      if c2.None? then c1.value
      else
        var c3 := if "PING_TIMEOUT_SEC" in kv then (var x := p.toFloat(kv["PING_TIMEOUT_SEC"]);
          if x.None? then None else Some(c2.value.(timeout := x.value))) else c2;
        if c3.None? then c2.value
        else if "PING_PRIVILEGED" in kv then c3.value.(privileged := Privileged(kv["PING_PRIVILEGED"]))
        else c3.value
  }

  /** Whether the conversion of setting `k` (0 count, 1 interval, 2 timeout) succeeds or is not attempted. */
  predicate Converts(kv: map<string, string>, p: Parsers, k: nat)
  {
    if k == 0 then "PING_COUNT" !in kv || p.toInt(kv["PING_COUNT"]).Some?
    else if k == 1 then "PING_INTERVAL_SEC" !in kv || p.toFloat(kv["PING_INTERVAL_SEC"]).Some?
    else "PING_TIMEOUT_SEC" !in kv || p.toFloat(kv["PING_TIMEOUT_SEC"]).Some?
  }

  /** Every conversion before setting `k` succeeded, so the block reaches it. */
  predicate Reaches(kv: map<string, string>, p: Parsers, k: nat)
  {
    forall j :: 0 <= j < k ==> Converts(kv, p, j)
  }

  /**
   * Partial parsing: a setting takes its new value exactly when its key is
   * present, its conversion succeeds and every conversion before it
   * succeeded; otherwise it keeps the value it had.
   */
  lemma ApplyStopsAtFirstBadValue(cfg: PingSettings, kv: map<string, string>, p: Parsers)
    ensures var r := Apply(cfg, kv, p);
      && r.count == (if "PING_COUNT" in kv && p.toInt(kv["PING_COUNT"]).Some?
                     then p.toInt(kv["PING_COUNT"]).value else cfg.count)
      && r.interval == (if Reaches(kv, p, 1) && "PING_INTERVAL_SEC" in kv && p.toFloat(kv["PING_INTERVAL_SEC"]).Some?
                        then p.toFloat(kv["PING_INTERVAL_SEC"]).value else cfg.interval)
      && r.timeout == (if Reaches(kv, p, 2) && "PING_TIMEOUT_SEC" in kv && p.toFloat(kv["PING_TIMEOUT_SEC"]).Some?
                       then p.toFloat(kv["PING_TIMEOUT_SEC"]).value else cfg.timeout)
      && r.privileged == (if Reaches(kv, p, 3) && "PING_PRIVILEGED" in kv
                          then Privileged(kv["PING_PRIVILEGED"]) else cfg.privileged)
  {
    assert Reaches(kv, p, 1) == Converts(kv, p, 0);
    assert Reaches(kv, p, 2) == (Converts(kv, p, 0) && Converts(kv, p, 1));
    assert Reaches(kv, p, 3) == (Converts(kv, p, 0) && Converts(kv, p, 1) && Converts(kv, p, 2));
  }

  /** A table is used when it exists and its select returns rows. */
  predicate Usable(tables: Tables, t: string)
  {
    t in tables && tables[t] != []
  }

  /** The first usable table among `names`, in order. */
  function FirstUsable(tables: Tables, names: seq<string>): (r: Option<nat>)
    ensures r.Some? ==> r.value < |names| && Usable(tables, names[r.value])
    ensures r.Some? ==> forall j :: 0 <= j < r.value ==> !Usable(tables, names[j])
    ensures r.None? ==> forall j :: 0 <= j < |names| ==> !Usable(tables, names[j])
  {
    if names == [] then None
    else if Usable(tables, names[0]) then Some(0)
    else
      var r := FirstUsable(tables, names[1..]);
      if r.None? then None else Some(r.value + 1)
  }

  /** `_load_ping_settings`, as a value. */
  function PingSettingsOf(tables: Tables, p: Parsers): PingSettings
  {
    var t := FirstUsable(tables, CONFIG_TABLES);
    if t.None? then DEFAULT_PING else Apply(DEFAULT_PING, KvMap(tables[CONFIG_TABLES[t.value]]), p)
  }

  /**
   * `_load_ping_settings`: starts from the defaults, skips the tables that
   * are missing or return no rows, applies the first one that does and
   * stops there.
   */
  method LoadPingSettings(tables: Tables, p: Parsers) returns (cfg: PingSettings)
    ensures cfg == PingSettingsOf(tables, p)
  {
    cfg := DEFAULT_PING;
    var i := 0;
    while i < |CONFIG_TABLES|
      invariant 0 <= i <= |CONFIG_TABLES|
      invariant forall j :: 0 <= j < i ==> !Usable(tables, CONFIG_TABLES[j])
      invariant cfg == DEFAULT_PING
    {
      var table := CONFIG_TABLES[i];
      if table !in tables {
        i := i + 1;
        continue;
      }
      var rows := tables[table];
      if rows == [] {
        i := i + 1;
        continue;
      }
      var kv := KvMap(rows);
      cfg := ApplyKv(cfg, kv, p);
      FirstUsableIs(tables, CONFIG_TABLES, i);
      return;
    }
    FirstUsableNone(tables, CONFIG_TABLES);
  }

  /** The `try` block, step by step; a conversion that raises leaves the rest untouched. */
  method ApplyKv(cfg0: PingSettings, kv: map<string, string>, p: Parsers) returns (cfg: PingSettings)
    ensures cfg == Apply(cfg0, kv, p)
  {
    cfg := cfg0;
    if "PING_COUNT" in kv {
      var n := p.toInt(kv["PING_COUNT"]);
      if n.None? { return; }
      cfg := cfg.(count := n.value);
    }
    if "PING_INTERVAL_SEC" in kv {
      var x := p.toFloat(kv["PING_INTERVAL_SEC"]);
      if x.None? { return; }
      cfg := cfg.(interval := x.value);
    }
    if "PING_TIMEOUT_SEC" in kv {
      var x := p.toFloat(kv["PING_TIMEOUT_SEC"]);
      if x.None? { return; }
      cfg := cfg.(timeout := x.value);
    }
    if "PING_PRIVILEGED" in kv {
      cfg := cfg.(privileged := Privileged(kv["PING_PRIVILEGED"]));
    }
  }

  lemma {:induction false} FirstUsableIs(tables: Tables, names: seq<string>, i: nat)
    requires i < |names| && Usable(tables, names[i])
    requires forall j :: 0 <= j < i ==> !Usable(tables, names[j])
    ensures FirstUsable(tables, names) == Some(i)
  {
    if i > 0 {
      assert !Usable(tables, names[0]);
      forall j | 0 <= j < i - 1 ensures !Usable(tables, names[1..][j]) {
        assert names[1..][j] == names[j + 1];
      }
      FirstUsableIs(tables, names[1..], i - 1);
    }
  }

  lemma {:induction false} FirstUsableNone(tables: Tables, names: seq<string>)
    requires forall j :: 0 <= j < |names| ==> !Usable(tables, names[j])
    ensures FirstUsable(tables, names) == None
  {
    if names != [] {
      assert !Usable(tables, names[0]);
      forall j | 0 <= j < |names| - 1 ensures !Usable(tables, names[1..][j]) {
        assert names[1..][j] == names[j + 1];
      }
      FirstUsableNone(tables, names[1..]);
    }
  }

  /** With no candidate table present and non-empty, the defaults come back unchanged. */
  lemma DefaultsWithoutTable(tables: Tables, p: Parsers)
    requires forall t :: t in CONFIG_TABLES ==> !Usable(tables, t)
    ensures PingSettingsOf(tables, p) == DEFAULT_PING
  {
    FirstUsableNone(tables, CONFIG_TABLES);
  }

  /**
   * Only the first usable table counts: two databases that agree on that
   * table and on every candidate before it give the same settings, whatever
   * the later tables hold.
   */
  lemma LaterTablesIgnored(tables: Tables, other: Tables, p: Parsers, i: nat)
    requires i < |CONFIG_TABLES| && Usable(tables, CONFIG_TABLES[i])
    requires forall j :: 0 <= j < i ==> !Usable(tables, CONFIG_TABLES[j])
    requires forall j :: 0 <= j <= i ==>
      (CONFIG_TABLES[j] in tables <==> CONFIG_TABLES[j] in other)
      && (CONFIG_TABLES[j] in tables ==> tables[CONFIG_TABLES[j]] == other[CONFIG_TABLES[j]])
    ensures PingSettingsOf(tables, p) == PingSettingsOf(other, p)
      == Apply(DEFAULT_PING, KvMap(tables[CONFIG_TABLES[i]]), p)
  {
    FirstUsableIs(tables, CONFIG_TABLES, i);
    forall j | 0 <= j < i ensures !Usable(other, CONFIG_TABLES[j]) {
      assert !Usable(tables, CONFIG_TABLES[j]);
    }
    FirstUsableIs(other, CONFIG_TABLES, i);
  }

  /** A `configs` table without rows falls through to `config`; `settings` is then not consulted. */
  lemma EmptyTableFallsThrough(p: Parsers)
    ensures var tables := map["configs" := [], "config" := [KvRow(Some("PING_PRIVILEGED"), Some(" yes"))],
                              "settings" := [KvRow(Some("PING_COUNT"), Some("5"))]];
      PingSettingsOf(tables, p) == DEFAULT_PING.(privileged := true)
  {
    var tables := map["configs" := [], "config" := [KvRow(Some("PING_PRIVILEGED"), Some(" yes"))],
                      "settings" := [KvRow(Some("PING_COUNT"), Some("5"))]];
    FirstUsableIs(tables, CONFIG_TABLES, 1);
    var rows := tables["config"];
    assert rows[..0] == [];
    var kv := KvMap(rows);
    assert kv == map["PING_PRIVILEGED" := " yes"];
    OnlyPrivileged(kv, p);
    assert Strip(" yes") == "yes" by {
      assert " yes"[1..] == "yes";
    }
    assert Lower("yes") == "yes";
  }

  lemma OnlyPrivileged(kv: map<string, string>, p: Parsers)
    requires kv.Keys == {"PING_PRIVILEGED"}
    ensures Apply(DEFAULT_PING, kv, p) == DEFAULT_PING.(privileged := Privileged(kv["PING_PRIVILEGED"]))
  {
    assert "PING_COUNT" !in kv && "PING_INTERVAL_SEC" !in kv && "PING_TIMEOUT_SEC" !in kv;
  }

  // ---------------------------------------------------------------------
  // Row loops
  // ---------------------------------------------------------------------

  /**
   * The loop shape shared by the three row loops: keep the rows that pass
   * `keep`, in order, each shaped by `shape`.
   */
  function FilterMap<R, T>(rows: seq<R>, keep: R -> bool, shape: R -> T): (out: seq<T>)
    ensures |out| <= |rows|
  {
    if rows == [] then []
    else
      var r := rows[|rows| - 1];
      FilterMap(rows[..|rows| - 1], keep, shape) + (if keep(r) then [shape(r)] else [])
  }

  /** Row order is kept: the rows of a concatenation come out as the two outputs concatenated. */
  lemma {:induction false} FilterMapAppend<R, T>(a: seq<R>, b: seq<R>, keep: R -> bool, shape: R -> T)
    ensures FilterMap(a + b, keep, shape) == FilterMap(a, keep, shape) + FilterMap(b, keep, shape)
  {
    if b == [] {
      assert a + b == a;
    } else {
      var init := b[..|b| - 1];
      assert (a + b)[..|a + b| - 1] == a + init;
      FilterMapAppend(a, init, keep, shape);
    }
  }

  /** Exactly the kept rows appear, each shaped. */
  lemma {:induction false} FilterMapMembers<R, T>(rows: seq<R>, keep: R -> bool, shape: R -> T, t: T)
    ensures t in FilterMap(rows, keep, shape) <==> exists i :: 0 <= i < |rows| && keep(rows[i]) && shape(rows[i]) == t
  {
    if rows != [] {
      var init := rows[..|rows| - 1];
      FilterMapMembers(init, keep, shape, t);
      if exists i :: 0 <= i < |init| && keep(init[i]) && shape(init[i]) == t {
        var i :| 0 <= i < |init| && keep(init[i]) && shape(init[i]) == t;
        assert rows[i] == init[i];
      }
      if exists i :: 0 <= i < |rows| && keep(rows[i]) && shape(rows[i]) == t {
        var i :| 0 <= i < |rows| && keep(rows[i]) && shape(rows[i]) == t;
        if i < |init| {
          assert init[i] == rows[i];
        }
      }
    }
  }

  /** A row of the ping-station query: id, name (NULL when the column is missing) and address. */
  datatype StationRow = StationRow(id: int, name: Option<string>, ipAddress: Option<string>)

  /** `{"id", "name", "ip_address"}` */
  datatype PingTarget = PingTarget(id: int, name: string, ipAddress: string)

  predicate HasIp(r: StationRow) { Truthy(r.ipAddress) }

  function ToPingTarget(r: StationRow): PingTarget
  {
    PingTarget(r.id, NameOr(r.name, r.id), if r.ipAddress.Some? then r.ipAddress.value else "")
  }

  /**
   * The row loop of `_load_stations_for_ping`: rows without an address are
   * dropped, the others kept in order with the name, or "Station {id}".
   */
  method StationsForPing(rows: seq<StationRow>) returns (out: seq<PingTarget>)
    ensures out == FilterMap(rows, HasIp, ToPingTarget)
  {
    out := [];
    for i := 0 to |rows|
      invariant out == FilterMap(rows[..i], HasIp, ToPingTarget)
    {
      assert rows[..i + 1][..i] == rows[..i];
      var r := rows[i];
      var ip := r.ipAddress;
      if ip.None? || ip.value == "" {
        continue;
      }
      var name := if r.name.Some? && r.name.value != "" then r.name.value else StationLabel(r.id);
      out := out + [PingTarget(r.id, name, ip.value)];
    }
    assert rows[..|rows|] == rows;
  }

  /** Every target has an address and a non-empty name, and comes from a row with that id and address. */
  lemma PingTargetsWellFormed(rows: seq<StationRow>, t: PingTarget)
    requires t in FilterMap(rows, HasIp, ToPingTarget)
    ensures t.ipAddress != "" && t.name != ""
    ensures exists i :: 0 <= i < |rows| && rows[i].id == t.id && rows[i].ipAddress == Some(t.ipAddress)
  {
    FilterMapMembers(rows, HasIp, ToPingTarget, t);
  }

  /**
   * What `json.loads` (or `dict()`/`list()` on a non-text value) made of a
   * JSON column: NULL or empty text, the decoded value, or an error.
   */
  datatype JsonField<T> = Empty | Decodes(value: T) | Undecodable

  /** `raw` decoded, or `fallback` when the column is empty or does not decode; a falsy result also becomes the fallback. */
  function DecodedOr<T>(f: JsonField<seq<T>>): (r: seq<T>)
    ensures f.Decodes? ==> r == f.value
    ensures !f.Decodes? ==> r == []
  {
    if f.Decodes? then f.value else []
  }

  /** What `int(meta.get("trend_days", 7))` meets: no key, a value `int()` converts, or one it refuses (or a meta that is not an object). */
  datatype TrendSetting = NoTrendDays | TrendDays(days: int) | BadTrendDays

  /** A row of the filestore query. */
  datatype FilestoreRow = FilestoreRow(id: int, name: Option<string>, filestorePath: Option<string>,
                                       ingestParameters: JsonField<seq<(string, TrendSetting)>>)

  /** `{"station_id", "station_name", "source_path", "parameters"}`; parameters in object order. */
  datatype FilestoreTask = FilestoreTask(stationId: int, stationName: string, sourcePath: string,
                                         parameters: seq<(string, TrendSetting)>)

  predicate HasPath(r: FilestoreRow) { Truthy(r.filestorePath) }

  function ToFilestoreTask(r: FilestoreRow): FilestoreTask
  {
    FilestoreTask(r.id, NameOr(r.name, r.id), if r.filestorePath.Some? then r.filestorePath.value else "",
                  DecodedOr(r.ingestParameters))
  }

  /**
   * The row loop of `load_filestore_tasks`: rows without a path are dropped;
   * parameters are the decoded object, or none when the column is empty or
   * does not decode.
   */
  method FilestoreTasks(rows: seq<FilestoreRow>) returns (tasks: seq<FilestoreTask>)
    ensures tasks == FilterMap(rows, HasPath, ToFilestoreTask)
  {
    tasks := [];
    for i := 0 to |rows|
      invariant tasks == FilterMap(rows[..i], HasPath, ToFilestoreTask)
    {
      assert rows[..i + 1][..i] == rows[..i];
      var r := rows[i];
      var path := r.filestorePath;
      if path.None? || path.value == "" {
        continue;
      }
      var params: seq<(string, TrendSetting)> := [];
      if r.ingestParameters.Decodes? {
        params := r.ingestParameters.value;
      }
      var name := if r.name.Some? && r.name.value != "" then r.name.value else StationLabel(r.id);
      tasks := tasks + [FilestoreTask(r.id, name, path.value, params)];
    }
    assert rows[..|rows|] == rows;
  }

  /** Every task has a path, and parameters only when the row's column decoded. */
  lemma FilestoreTasksWellFormed(rows: seq<FilestoreRow>, t: FilestoreTask)
    requires t in FilterMap(rows, HasPath, ToFilestoreTask)
    ensures t.sourcePath != "" && t.stationName != ""
    ensures exists i :: (0 <= i < |rows| && rows[i].id == t.stationId && rows[i].filestorePath == Some(t.sourcePath)
      && t.parameters == (if rows[i].ingestParameters.Decodes? then rows[i].ingestParameters.value else []))
  {
    FilterMapMembers(rows, HasPath, ToFilestoreTask, t);
  }

  /** A row of the poll query. */
  datatype PollRow = PollRow(id: int, name: Option<string>, ipAddress: Option<string>,
                             pollVariables: JsonField<seq<string>>)

  /** `{"station_id", "station_name", "ip_address", "variables"}` */
  datatype PollTask = PollTask(stationId: int, stationName: string, ipAddress: string, variables: seq<string>)

  predicate PollHasIp(r: PollRow) { Truthy(r.ipAddress) }

  function ToPollTask(r: PollRow): PollTask
  {
    PollTask(r.id, NameOr(r.name, r.id), if r.ipAddress.Some? then r.ipAddress.value else "",
             DecodedOr(r.pollVariables))
  }

  /**
   * The row loop of `load_logger_poll_tasks`: rows without an address are
   * dropped; variables are the decoded list, or none when the column is
   * empty or does not decode.
   */
  method PollTasks(rows: seq<PollRow>) returns (tasks: seq<PollTask>)
    ensures tasks == FilterMap(rows, PollHasIp, ToPollTask)
  {
    tasks := [];
    for i := 0 to |rows|
      invariant tasks == FilterMap(rows[..i], PollHasIp, ToPollTask)
    {
      assert rows[..i + 1][..i] == rows[..i];
      var r := rows[i];
      var ip := r.ipAddress;
      if ip.None? || ip.value == "" {
        continue;
      }
      var variables: seq<string> := [];
      if r.pollVariables.Decodes? {
        variables := r.pollVariables.value;
      }
      var name := if r.name.Some? && r.name.value != "" then r.name.value else StationLabel(r.id);
      tasks := tasks + [PollTask(r.id, name, ip.value, variables)];
    }
    assert rows[..|rows|] == rows;
  }

  /** A row whose variables do not decode still yields a task, with no variables. */
  lemma UndecodableVariablesGiveNone(id: int, ip: string)
    requires ip != ""
    ensures FilterMap([PollRow(id, None, Some(ip), Undecodable)], PollHasIp, ToPollTask)
      == [PollTask(id, StationLabel(id), ip, [])]
  {
  }
}
