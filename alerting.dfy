/**
 * The StatMon alert evaluation engine (`AlertManager`).
 *
 * One pass looks at a snapshot of the store: the stations, the readings of
 * the last seven days and each station's ping results, most recent first.
 * For every station it derives up to three kinds of alert candidates — a
 * consecutive ping-failure streak, a data gap and threshold breaches — and
 * hands each candidate whose key has not been sent before to the
 * notification sinks. The keys sent so far form a set that lives as long as
 * the process and only grows.
 *
 * The snapshot is given as plain values; times are whole seconds. Alert keys
 * are a datatype instead of the f-strings of the source; titles and bodies
 * of notifications are not modelled.
 */
module Alerting {
  import opened Common

  // ---------------------------------------------------------------------
  // Snapshot values
  // ---------------------------------------------------------------------

  /** What `_get_int` finds: no attribute, a None value, a value `int()` converts, or one it refuses. */
  datatype IntAttr = Missing | Null | Converts(n: int) | Unconvertible

  /**
   * One entry of the thresholds JSON object: a two-element list, with each
   * bound already converted (None for null or a value that does not convert
   * to float), or any other value.
   */
  datatype RawRule = Pair(lo: Option<real>, hi: Option<real>) | NotPair

  /**
   * The `alert_thresholds` attribute of a station: absent, falsy, text that
   * does not parse as a JSON object, or the object's entries in order.
   * `items` are the decoded object's `items()`, with each key already passed
   * through `str()`: the JSON decoder has merged duplicate keys (the last one
   * wins) before this point, so `{"a": [1, 2], "a": "x"}` arrives as the single
   * entry `("a", NotPair)` and yields no rule, never as two entries.
   */
  datatype ThresholdSource = NoAttribute | Falsy | Unparseable | Entries(items: seq<(string, RawRule)>)

  /** A station row with its optional alert settings. */
  datatype Station = Station(id: int, pingFailures: IntAttr, gapHours: IntAttr, thresholds: ThresholdSource)

  /** A parsed threshold rule: a parameter and its optional bounds. */
  datatype Rule = Rule(name: string, min: Option<real>, max: Option<real>)

  /** The latest reading of one station parameter. */
  datatype Latest = Latest(value: real, timestamp: int)

  /** `{station_id: {param_name: (value, timestamp)}}` */
  type LatestMap = map<int, map<string, Latest>>

  /** The identity of one instance of an alert condition. */
  datatype AlertKey =
    | PingFail(station: int, count: int)
    | Gap(station: int, hours: int)
    | Thresh(station: int, param: string, timestamp: int)

  datatype Severity = High | Medium

  datatype Alert = Alert(key: AlertKey, severity: Severity)

  /** Which sinks the notification settings enable (a truthy webhook URL, a truthy email section). */
  datatype NotifyConfig = NotifyConfig(teamsWebhook: bool, email: bool)

  datatype Sink = Teams | Email

  /** One call of a sink for one alert, and whether it completed without raising. */
  datatype Delivery = Delivery(sink: Sink, alert: Alert, delivered: bool)

  const SECONDS_PER_HOUR := 3600

  /** The least number of ping results the failure query looks at. */
  const PING_WINDOW := 20

  function Max(a: int, b: int): int { if a < b then b else a }

  function Min(a: int, b: int): int { if a < b then a else b }

  // ---------------------------------------------------------------------
  // Per-station settings
  // ---------------------------------------------------------------------

  /** `_get_int`: the converted attribute, or the default when it is absent, None or not convertible. */
  function GetInt(a: IntAttr, default: int): (r: int)
    ensures a.Converts? ==> r == a.n
    ensures !a.Converts? ==> r == default
  {
    match a
    case Converts(n) => n
    case _ => default
  }

  /** The parameter names of a list of rules. */
  function NameSet(rules: seq<Rule>): set<string>
  {
    set r | r in rules :: r.name
  }

  /** No two rules name the same parameter, as in a Python dict. */
  predicate DistinctNames(rules: seq<Rule>)
  {
    forall i, j :: 0 <= i < j < |rules| ==> rules[i].name != rules[j].name
  }

  /** The rule for parameter `p`, if any (the first one, which is the only one when names are distinct). */
  function Lookup(rules: seq<Rule>, p: string): (r: Option<Rule>)
    ensures r.Some? ==> r.value in rules && r.value.name == p
    ensures r.None? <==> p !in NameSet(rules)
  {
    if rules == [] then None
    else if rules[0].name == p then Some(rules[0])
    else
      assert NameSet(rules) == {rules[0].name} + NameSet(rules[1..]) by {
        assert rules == [rules[0]] + rules[1..];
      }
      Lookup(rules[1..], p)
  }

  /**
   * `out[name] = bounds` on an insertion-ordered dict: replaces the entry in
   * place when the name is present, appends it otherwise.
   */
  function Put(rules: seq<Rule>, rule: Rule): (r: seq<Rule>)
    ensures NameSet(r) == NameSet(rules) + {rule.name}
    ensures DistinctNames(rules) ==> DistinctNames(r)
  {
    if rules == [] then [rule]
    else
      assert rules == [rules[0]] + rules[1..];
      if rules[0].name == rule.name then
        assert NameSet(rules) == {rules[0].name} + NameSet(rules[1..]);
        assert [rule] + rules[1..] == rules[0 := rule];
        [rule] + rules[1..]
      else
        var tail := Put(rules[1..], rule);
        assert NameSet(rules) == {rules[0].name} + NameSet(rules[1..]);
        assert NameSet([rules[0]] + tail) == {rules[0].name} + NameSet(tail);
        assert DistinctNames(rules) ==> rules[0].name !in NameSet(rules[1..]);
        [rules[0]] + tail
  }

  lemma {:induction false} PutLookup(rules: seq<Rule>, rule: Rule, p: string)
    ensures Lookup(Put(rules, rule), p) == if p == rule.name then Some(rule) else Lookup(rules, p)
  {
    if rules != [] && rules[0].name != rule.name {
      PutLookup(rules[1..], rule, p);
    }
  }

  /** The rules `_get_thresholds` builds from the JSON entries, in dict order. */
  function ThresholdsFrom(items: seq<(string, RawRule)>): seq<Rule>
  {
    if items == [] then []
    else
      var prev := ThresholdsFrom(items[..|items| - 1]);
      var item := items[|items| - 1];
      if item.1.Pair? then Put(prev, Rule(item.0, item.1.lo, item.1.hi)) else prev
  }

  /** `_get_thresholds`: the rules of a station; none when the attribute is absent, falsy or unparseable. */
  function ThresholdsOf(src: ThresholdSource): seq<Rule>
  {
    if src.Entries? then ThresholdsFrom(src.items) else []
  }

  /** An independent reading of the thresholds: the bounds of the last two-element entry named `p`. */
  function LastPair(items: seq<(string, RawRule)>, p: string): Option<Rule>
  {
    if items == [] then None
    else
      var item := items[|items| - 1];
      if item.0 == p && item.1.Pair? then Some(Rule(p, item.1.lo, item.1.hi))
      else LastPair(items[..|items| - 1], p)
  }

  /**
   * The parsed thresholds hold one rule per parameter, and the rule for `p`
   * carries the bounds of the last two-element entry for `p`; entries that
   * are not two-element lists are dropped, and null bounds stay None.
   */
  lemma {:induction false} ThresholdsFromSpec(items: seq<(string, RawRule)>, p: string)
    ensures DistinctNames(ThresholdsFrom(items))
    ensures Lookup(ThresholdsFrom(items), p) == LastPair(items, p)
  {
    if items != [] {
      var init := items[..|items| - 1];
      var item := items[|items| - 1];
      ThresholdsFromSpec(init, p);
      if item.1.Pair? {
        PutLookup(ThresholdsFrom(init), Rule(item.0, item.1.lo, item.1.hi), p);
      }
    }
  }

  /** `_get_thresholds`, the loop that fills `out`. */
  method GetThresholds(s: Station) returns (out: seq<Rule>)
    ensures out == ThresholdsOf(s.thresholds)
  {
    out := [];
    if !s.thresholds.Entries? {
      // No attribute, a falsy value, or a parse error that is logged and ignored.
      return;
    }
    var items := s.thresholds.items;
    for i := 0 to |items|
      invariant out == ThresholdsFrom(items[..i])
    {
      assert items[..i + 1][..i] == items[..i];
      var (k, raw) := items[i];
      if !raw.Pair? {
        continue;
      }
      out := Put(out, Rule(k, raw.lo, raw.hi));
    }
    assert items[..|items|] == items;
  }

  // ---------------------------------------------------------------------
  // Failure streak
  // ---------------------------------------------------------------------

  /** The length of the leading run of failures (false entries) of a most-recent-first window. */
  function LeadingFailures(w: seq<bool>): (n: nat)
    ensures n <= |w|
    ensures forall j :: 0 <= j < n ==> !w[j]
    ensures n < |w| ==> w[n]
  {
    if w == [] || w[0] then 0 else 1 + LeadingFailures(w[1..])
  }

  /** The ping results the failure query returns: the `max(20, limit)` most recent. */
  function SearchWindow(history: seq<bool>, limit: int): seq<bool>
  {
    history[..Min(|history|, Max(PING_WINDOW, limit))]
  }

  /** `_consecutive_ping_failures`, as a value: 0 for a non-positive limit. */
  function Streak(history: seq<bool>, limit: int): nat
  {
    if limit <= 0 then 0 else LeadingFailures(SearchWindow(history, limit))
  }

  /**
   * `_consecutive_ping_failures`: counts the failures at the head of the
   * most-recent-first history, looking at no more than `max(20, limit)`
   * results and stopping at the first success.
   */
  method ConsecutivePingFailures(history: seq<bool>, limit: int) returns (count: nat)
    ensures count == Streak(history, limit)
    ensures limit <= 0 ==> count == 0
    ensures count <= |history| && count <= Max(PING_WINDOW, limit)
    ensures forall j :: 0 <= j < count ==> !history[j]
  {
    if limit <= 0 {
      return 0;
    }
    var window := history[..Min(|history|, Max(PING_WINDOW, limit))];
    count := 0;
    while count < |window|
      invariant count <= |window|
      invariant forall j :: 0 <= j < count ==> !window[j]
    {
      if window[count] {
        break;
      }
      count := count + 1;
    }
  }

  /** The ping-failure candidate: raised when `count >= limit > 0`, keyed by the count itself. */
  function PingCandidates(sid: int, count: int, limit: int): (r: seq<Alert>)
    ensures |r| <= 1
    ensures r != [] <==> limit > 0 && count >= limit
    ensures forall a :: a in r ==> a.key == PingFail(sid, count) && a.severity == High
  {
    if count >= limit && limit > 0 then [Alert(PingFail(sid, count), High)] else []
  }

  /**
   * A ping-failure alert is raised exactly when the limit is positive and
   * the `limit` most recent pings all failed; the search window never hides
   * such a streak because it is at least `limit` long.
   */
  lemma PingAlertIff(sid: int, history: seq<bool>, limit: int)
    ensures PingCandidates(sid, Streak(history, limit), limit) != []
        <==> limit > 0 && limit <= |history| && forall j :: 0 <= j < limit ==> !history[j]
  {
    if limit > 0 {
      var w := SearchWindow(history, limit);
      assert forall j :: 0 <= j < |w| ==> w[j] == history[j];
    }
  }

  // ---------------------------------------------------------------------
  // Latest readings
  // ---------------------------------------------------------------------

  /** A reading `_latest_readings_map` may record: it has a name and a numeric value. */
  predicate Counted(r: Reading)
  {
    Truthy(r.name) && r.value.Some?
  }

  /** A recordable reading of parameter `p` of station `sid`. */
  predicate Of(r: Reading, sid: int, p: string)
  {
    Counted(r) && r.stationId == sid && r.name.value == p
  }

  /** `result.get(sid, {})` */
  function ParamsOf(m: LatestMap, sid: int): map<string, Latest>
  {
    if sid in m then m[sid] else map[]
  }

  /**
   * One iteration of `_latest_readings_map`: a nameless reading is skipped;
   * otherwise the station gets an (empty) entry, as the defaultdict creates
   * one, and the parameter is replaced only by a strictly newer reading whose
   * value converts.
   */
  function Record(m: LatestMap, r: Reading): (m': LatestMap)
    ensures m'.Keys == if Truthy(r.name) then m.Keys + {r.stationId} else m.Keys
    ensures forall s :: s in m && s != r.stationId ==> m'[s] == m[s]
    ensures forall p :: p in ParamsOf(m, r.stationId) ==>
      p in ParamsOf(m', r.stationId) && ParamsOf(m', r.stationId)[p].timestamp >= ParamsOf(m, r.stationId)[p].timestamp
    ensures Counted(r) ==> (r.name.value in ParamsOf(m', r.stationId)
      && ParamsOf(m', r.stationId)[r.name.value].timestamp >= r.timestamp)
  {
    if !Truthy(r.name) then m
    else
      var params := ParamsOf(m, r.stationId);
      var p := r.name.value;
      if (p !in params || r.timestamp > params[p].timestamp) && r.value.Some? then
        m[r.stationId := params[p := Latest(r.value.value, r.timestamp)]]
      else
        m[r.stationId := params]
  }

  /** The map `_latest_readings_map` builds from the readings, in the order the query yields them. */
  function LatestMapOf(readings: seq<Reading>): (m: LatestMap)
  {
    if readings == [] then map[]
    else Record(LatestMapOf(readings[..|readings| - 1]), readings[|readings| - 1])
  }

  /** The map has an entry for exactly the stations that have a reading with a truthy name. */
  lemma {:induction false} LatestKeys(readings: seq<Reading>, sid: int)
    ensures sid in LatestMapOf(readings)
      <==> exists i :: 0 <= i < |readings| && Truthy(readings[i].name) && readings[i].stationId == sid
  {
    if readings != [] {
      var n := |readings| - 1;
      var init := readings[..n];
      LatestKeys(init, sid);
      assert forall i :: 0 <= i < n ==> init[i] == readings[i];
    }
  }

  /** `_latest_readings_map`, the loop that fills the dict in place. */
  method LatestReadingsMap(readings: seq<Reading>) returns (m: LatestMap)
    ensures m == LatestMapOf(readings)
  {
    m := map[];
    for i := 0 to |readings|
      invariant m == LatestMapOf(readings[..i])
    {
      assert readings[..i + 1][..i] == readings[..i];
      var r := readings[i];
      if r.name.None? || r.name.value == "" {
        continue;
      }
      var sid := r.stationId;
      var pname := r.name.value;
      if sid !in m {
        m := m[sid := map[]];
      }
      var params := m[sid];
      if pname !in params || r.timestamp > params[pname].timestamp {
        if r.value.None? {
          // float(r.value) raised: skip the reading.
          continue;
        }
        m := m[sid := params[pname := Latest(r.value.value, r.timestamp)]];
      }
    }
    assert readings[..|readings|] == readings;
  }

  /** Every recordable reading is covered: its parameter has an entry no older than it. */
  lemma {:induction false} LatestDominates(readings: seq<Reading>, i: nat)
    requires i < |readings| && Counted(readings[i])
    ensures var r := readings[i]; var params := ParamsOf(LatestMapOf(readings), r.stationId);
      r.name.value in params && params[r.name.value].timestamp >= r.timestamp
  {
    var n := |readings| - 1;
    var init := readings[..n];
    assert LatestMapOf(readings) == Record(LatestMapOf(init), readings[n]);
    if i < n {
      assert init[i] == readings[i];
      LatestDominates(init, i);
    }
  }

  /**
   * Every entry comes from a recordable reading of that station and
   * parameter with that value and timestamp, and no earlier such reading is
   * as new: on equal timestamps the first reading read wins.
   */
  lemma {:induction false} LatestWitness(readings: seq<Reading>, sid: int, p: string)
    requires p in ParamsOf(LatestMapOf(readings), sid)
    ensures exists i :: (0 <= i < |readings| && Of(readings[i], sid, p)
      && ParamsOf(LatestMapOf(readings), sid)[p] == Latest(readings[i].value.value, readings[i].timestamp)
      && forall j :: 0 <= j < i && Of(readings[j], sid, p) ==> readings[j].timestamp < readings[i].timestamp)
  {
    var n := |readings| - 1;
    var init := readings[..n];
    var before := ParamsOf(LatestMapOf(init), sid);
    var after := ParamsOf(LatestMapOf(readings), sid);
    if p in before && after[p] == before[p] {
      LatestWitness(init, sid, p);
      var i :| 0 <= i < |init| && Of(init[i], sid, p)
        && before[p] == Latest(init[i].value.value, init[i].timestamp)
        && forall j :: 0 <= j < i && Of(init[j], sid, p) ==> init[j].timestamp < init[i].timestamp;
      assert readings[i] == init[i];
      forall j | 0 <= j < i && Of(readings[j], sid, p)
        ensures readings[j].timestamp < readings[i].timestamp
      {
        assert readings[j] == init[j];
      }
    } else {
      // The last reading set the entry.
      var r := readings[n];
      assert Of(r, sid, p) && after[p] == Latest(r.value.value, r.timestamp);
      forall j | 0 <= j < n && Of(readings[j], sid, p)
        ensures readings[j].timestamp < r.timestamp
      {
        assert init[j] == readings[j];
        LatestDominates(init, j);
      }
    }
  }

  /** `t` is the newest timestamp among a station's parameters: one of them has it, none is newer. */
  predicate IsNewest(params: map<string, Latest>, t: int)
  {
    (exists p :: p in params && params[p].timestamp == t)
    && forall q :: q in params ==> params[q].timestamp <= t
  }

  /** `_latest_station_timestamp`: None for a station with no parameters, else the newest of them. */
  function LatestStationTimestamp(m: LatestMap, sid: int): (r: Option<int>)
    ensures r.None? <==> ParamsOf(m, sid) == map[]
    ensures r.Some? ==> IsNewest(ParamsOf(m, sid), r.value)
  {
    var params := ParamsOf(m, sid);
    if params == map[] then None
    else
      NewestExists(params);
      var t :| IsNewest(params, t);
      Some(t)
  }

  lemma NewestExists(params: map<string, Latest>)
    requires params != map[]
    ensures exists t :: IsNewest(params, t)
  {
    var p := NewestKey(params);
    assert IsNewest(params, params[p].timestamp);
  }

  /** A parameter with the newest timestamp, found by setting one parameter aside at a time. */
  lemma {:induction false} NewestKey(params: map<string, Latest>) returns (p: string)
    requires params != map[]
    ensures p in params && forall q :: q in params ==> params[q].timestamp <= params[p].timestamp
    decreases |params|
  {
    var k :| k in params;
    var rest := params - {k};
    assert rest.Keys == params.Keys - {k};
    if rest == map[] {
      forall q | q in params ensures q == k {
        assert q == k || q in rest.Keys;
      }
      p := k;
    } else {
      var r := NewestKey(rest);
      p := if rest[r].timestamp < params[k].timestamp then k else r;
      forall q | q in params ensures params[q].timestamp <= params[p].timestamp {
        if q != k { assert q in rest.Keys; }
      }
    }
  }

  // ---------------------------------------------------------------------
  // Gap and threshold tests
  // ---------------------------------------------------------------------

  /** The gap candidate: no reading at all, or the newest older than `hours` (strictly); keyed by station and hours. */
  function GapCandidates(sid: int, latest: Option<int>, hours: int, now: int): (r: seq<Alert>)
    ensures |r| <= 1
    ensures r == [] <==> latest.Some? && now - latest.value <= hours * SECONDS_PER_HOUR
    ensures forall a :: a in r ==> a.key == Gap(sid, hours) && a.severity == Medium
  {
    if latest.None? || now - latest.value > hours * SECONDS_PER_HOUR then [Alert(Gap(sid, hours), Medium)] else []
  }

  /**
   * In terms of the readings themselves: a station has a gap alert exactly
   * when every recordable reading of it is more than `hours` old — which
   * holds, in particular, when it has none.
   */
  lemma GapIffStale(readings: seq<Reading>, sid: int, hours: int, now: int)
    ensures GapCandidates(sid, LatestStationTimestamp(LatestMapOf(readings), sid), hours, now) != []
        <==> forall i :: 0 <= i < |readings| && Counted(readings[i]) && readings[i].stationId == sid ==>
               now - readings[i].timestamp > hours * SECONDS_PER_HOUR
  {
    var m := LatestMapOf(readings);
    var latest := LatestStationTimestamp(m, sid);
    var params := ParamsOf(m, sid);
    forall i | 0 <= i < |readings| && Counted(readings[i]) && readings[i].stationId == sid
      ensures latest.Some? && readings[i].timestamp <= latest.value
    {
      LatestDominates(readings, i);
    }
    if latest.Some? {
      var p :| p in params && params[p].timestamp == latest.value;
      LatestWitness(readings, sid, p);
    }
  }

  /** A reading breaches a rule when below a set minimum or above a set maximum. */
  predicate Breach(value: real, rule: Rule): (b: bool)
    ensures !b <==> (rule.min.None? || rule.min.value <= value) && (rule.max.None? || value <= rule.max.value)
  {
    (rule.min.Some? && value < rule.min.value) || (rule.max.Some? && value > rule.max.value)
  }

  /** The candidate of one rule: an alert keyed by its parameter's latest reading, when that reading breaches it. */
  function RuleCandidate(sid: int, rule: Rule, params: map<string, Latest>): seq<Alert>
  {
    if rule.name in params && Breach(params[rule.name].value, rule)
    then [Alert(Thresh(sid, rule.name, params[rule.name].timestamp), Medium)]
    else []
  }

  /** The threshold candidates, in rule order: one per rule whose parameter has a breaching latest reading. */
  function ThresholdCandidates(sid: int, rules: seq<Rule>, params: map<string, Latest>): (r: seq<Alert>)
    ensures |r| <= |rules|
    ensures forall a :: a in r ==>
      && a.severity == Medium && a.key.Thresh? && a.key.station == sid
      && a.key.param in params && a.key.timestamp == params[a.key.param].timestamp
  {
    if rules == [] then []
    else
      var rule := rules[|rules| - 1];
      ThresholdCandidates(sid, rules[..|rules| - 1], params) + RuleCandidate(sid, rule, params)
  }

  lemma ThresholdStep(sid: int, rules: seq<Rule>, j: nat, params: map<string, Latest>, head: seq<Alert>)
    requires j < |rules|
    ensures head + ThresholdCandidates(sid, rules[..j + 1], params)
      == head + ThresholdCandidates(sid, rules[..j], params) + RuleCandidate(sid, rules[j], params)
  {
    assert rules[..j + 1][..j] == rules[..j];
  }

  /**
   * A threshold alert exists for a rule exactly when its parameter has a
   * latest reading that breaches it, and the alert's key carries that
   * reading's timestamp; parameters without a reading raise nothing.
   */
  lemma {:induction false} ThresholdCandidatesSpec(sid: int, rules: seq<Rule>, params: map<string, Latest>, a: Alert)
    ensures a in ThresholdCandidates(sid, rules, params) <==>
      exists rule :: rule in rules && rule.name in params && Breach(params[rule.name].value, rule)
        && a == Alert(Thresh(sid, rule.name, params[rule.name].timestamp), Medium)
  {
    if rules != [] {
      var init := rules[..|rules| - 1];
      ThresholdCandidatesSpec(sid, init, params, a);
      assert rules == init + [rules[|rules| - 1]];
    }
  }

  // ---------------------------------------------------------------------
  // A whole pass and deduplication
  // ---------------------------------------------------------------------

  /** `pings` holds each station's ping results, most recent first; a station without any has none. */
  function History(pings: map<int, seq<bool>>, sid: int): seq<bool>
  {
    if sid in pings then pings[sid] else []
  }

  /**
   * The candidates of one station, in the order `run` considers them: the
   * failure limit defaults to 3 and the gap window to 6 hours.
   */
  function StationCandidates(s: Station, latest: LatestMap, history: seq<bool>, now: int): (r: seq<Alert>)
    ensures forall a :: a in r ==> a.key.station == s.id
    ensures |r| <= 2 + |ThresholdsOf(s.thresholds)|
    ensures forall a :: a in r && a.key.PingFail? ==> a.key.count >= GetInt(s.pingFailures, 3) > 0
    ensures forall a :: a in r && a.key.Gap? ==> a.key.hours == GetInt(s.gapHours, 6)
    ensures !s.pingFailures.Converts? ==> forall a :: a in r && a.key.PingFail? ==> a.key.count >= 3
    ensures !s.gapHours.Converts? ==> forall a :: a in r && a.key.Gap? ==> a.key.hours == 6
  {
    var limit := GetInt(s.pingFailures, 3);
    var hours := GetInt(s.gapHours, 6);
    PingCandidates(s.id, Streak(history, limit), limit)
    + GapCandidates(s.id, LatestStationTimestamp(latest, s.id), hours, now)
    + ThresholdCandidates(s.id, ThresholdsOf(s.thresholds), ParamsOf(latest, s.id))
  }

  lemma StationCandidatesSplit(prior: seq<Alert>, s: Station, latest: LatestMap, history: seq<bool>, now: int)
    ensures var limit := GetInt(s.pingFailures, 3);
      prior + StationCandidates(s, latest, history, now)
      == prior + PingCandidates(s.id, Streak(history, limit), limit)
         + GapCandidates(s.id, LatestStationTimestamp(latest, s.id), GetInt(s.gapHours, 6), now)
         + ThresholdCandidates(s.id, ThresholdsOf(s.thresholds), ParamsOf(latest, s.id))
  {
  }

  /** The candidates of a whole pass, station by station. */
  function PassCandidates(stations: seq<Station>, latest: LatestMap, pings: map<int, seq<bool>>, now: int): (r: seq<Alert>)
    ensures forall a :: a in r ==> exists s :: s in stations && s.id == a.key.station
  {
    if stations == [] then []
    else
      var s := stations[|stations| - 1];
      PassCandidates(stations[..|stations| - 1], latest, pings, now)
      + StationCandidates(s, latest, History(pings, s.id), now)
  }

  lemma PassCandidatesStep(stations: seq<Station>, i: nat, latest: LatestMap, pings: map<int, seq<bool>>, now: int)
    requires i < |stations|
    ensures PassCandidates(stations[..i + 1], latest, pings, now)
      == PassCandidates(stations[..i], latest, pings, now)
         + StationCandidates(stations[i], latest, History(pings, stations[i].id), now)
  {
    assert stations[..i + 1][..i] == stations[..i];
  }

  function KeysOf(c: seq<Alert>): set<AlertKey>
  {
    set a | a in c :: a.key
  }

  predicate DistinctKeys(c: seq<Alert>)
  {
    forall i, j :: 0 <= i < j < |c| ==> c[i].key != c[j].key
  }

  /**
   * The candidates that reach the dispatcher when `sent` holds the keys sent
   * before: each candidate whose key is neither in `sent` nor the key of an
   * earlier candidate.
   */
  function Fresh(sent: set<AlertKey>, c: seq<Alert>): (r: seq<Alert>)
    ensures |r| <= |c|
    ensures forall i :: 0 <= i < |r| ==> r[i].key !in sent
  {
    if c == [] then []
    else
      var init := c[..|c| - 1];
      var a := c[|c| - 1];
      Fresh(sent, init) + (if a.key in sent + KeysOf(init) then [] else [a])
  }

  lemma KeysOfAppend(a: seq<Alert>, b: seq<Alert>)
    ensures KeysOf(a + b) == KeysOf(a) + KeysOf(b)
  {
    assert forall x :: x in a + b <==> x in a || x in b;
  }

  /**
   * Deduplication: what reaches the dispatcher is taken from the candidates,
   * carries no key sent before and no key twice, and its keys are exactly
   * the candidates' keys that were not sent before.
   */
  lemma {:induction false} FreshIsDedup(sent: set<AlertKey>, c: seq<Alert>)
    ensures forall a :: a in Fresh(sent, c) ==> a in c && a.key !in sent
    ensures DistinctKeys(Fresh(sent, c))
    ensures KeysOf(Fresh(sent, c)) == KeysOf(c) - sent
  {
    if c != [] {
      var init := c[..|c| - 1];
      var a := c[|c| - 1];
      assert c == init + [a];
      FreshIsDedup(sent, init);
      KeysOfAppend(init, [a]);
      var tail := if a.key in sent + KeysOf(init) then [] else [a];
      KeysOfAppend(Fresh(sent, init), tail);
      var r := Fresh(sent, init);
      if tail == [a] {
        forall i | 0 <= i < |r| ensures r[i].key != a.key {
          assert r[i] in r;
        }
      }
    }
  }

  /** Deduplicating two runs of candidates one after the other is deduplicating their concatenation. */
  lemma {:induction false} FreshAppend(sent: set<AlertKey>, c1: seq<Alert>, c2: seq<Alert>)
    ensures Fresh(sent, c1 + c2) == Fresh(sent, c1) + Fresh(sent + KeysOf(c1), c2)
  {
    if c2 == [] {
      assert c1 + c2 == c1;
    } else {
      var init2 := c2[..|c2| - 1];
      var a := c2[|c2| - 1];
      assert (c1 + c2)[..|c1 + c2| - 1] == c1 + init2;
      FreshAppend(sent, c1, init2);
      KeysOfAppend(c1, init2);
    }
  }

  /**
   * Candidates whose keys were all sent before dispatch nothing; in
   * particular a second pass over the same candidates is silent, so a
   * persisting condition alerts once.
   */
  lemma {:induction false} SentKeysAreSilent(sent: set<AlertKey>, c: seq<Alert>)
    requires KeysOf(c) <= sent
    ensures Fresh(sent, c) == []
  {
    if c != [] {
      var init := c[..|c| - 1];
      assert c == init + [c[|c| - 1]];
      KeysOfAppend(init, [c[|c| - 1]]);
      SentKeysAreSilent(sent, init);
    }
  }

  lemma RepeatedPassIsSilent(sent: set<AlertKey>, c: seq<Alert>)
    ensures Fresh(sent + KeysOf(c), c) == []
  {
    SentKeysAreSilent(sent + KeysOf(c), c);
  }

  /** The dedup guard's invariant: the keys handed out so far are the sent set, each once. */
  lemma DispatchKeepsGuard(dispatched: seq<Alert>, sent: set<AlertKey>, c: seq<Alert>)
    requires KeysOf(dispatched) == sent && DistinctKeys(dispatched)
    ensures KeysOf(dispatched + Fresh(sent, c)) == sent + KeysOf(c)
    ensures DistinctKeys(dispatched + Fresh(sent, c))
  {
    var f := Fresh(sent, c);
    FreshIsDedup(sent, c);
    KeysOfAppend(dispatched, f);
    var d := dispatched + f;
    forall i, j | 0 <= i < j < |d| ensures d[i].key != d[j].key {
      if j >= |dispatched| && i < |dispatched| {
        assert dispatched[i] in dispatched;
        assert f[j - |dispatched|] in f;
      }
    }
  }

  // ---------------------------------------------------------------------
  // Notification fan-out
  // ---------------------------------------------------------------------

  /**
   * `_send_alert`: a call of the Teams sink when a webhook is configured,
   * then a call of the email sink when email is configured; a sink that
   * raises is logged and does not stop the next one.
   */
  function Fanout(cfg: NotifyConfig, a: Alert, failing: set<(Sink, AlertKey)>): (r: seq<Delivery>)
    ensures (exists d :: d in r && d.sink == Email) <==> cfg.email
    ensures (exists d :: d in r && d.sink == Teams) <==> cfg.teamsWebhook
    ensures forall d :: d in r ==> d.alert == a && (d.delivered <==> (d.sink, a.key) !in failing)
    ensures |r| <= 2
    ensures |r| == 2 ==> r[0].sink == Teams && r[1].sink == Email
  {
    (if cfg.teamsWebhook then [Delivery(Teams, a, (Teams, a.key) !in failing)] else [])
    + (if cfg.email then [Delivery(Email, a, (Email, a.key) !in failing)] else [])
  }

  function FanoutAll(cfg: NotifyConfig, alerts: seq<Alert>, failing: set<(Sink, AlertKey)>): seq<Delivery>
  {
    if alerts == [] then []
    else FanoutAll(cfg, alerts[..|alerts| - 1], failing) + Fanout(cfg, alerts[|alerts| - 1], failing)
  }

  /**
   * The manager's sent set, dispatch log and sink log, starting from `S0`,
   * `D0` and `L0`, after it has considered the candidates `done` in order.
   */
  ghost predicate Considered(sent: set<AlertKey>, dispatched: seq<Alert>, deliveries: seq<Delivery>,
                             S0: set<AlertKey>, D0: seq<Alert>, L0: seq<Delivery>,
                             cfg: NotifyConfig, failing: set<(Sink, AlertKey)>, done: seq<Alert>)
  {
    && sent == S0 + KeysOf(done)
    && dispatched == D0 + Fresh(S0, done)
    && deliveries == L0 + FanoutAll(cfg, Fresh(S0, done), failing)
  }

  /** The guard's step: a known key changes nothing, a new one is sent, logged and remembered. */
  lemma OfferStep(sent: set<AlertKey>, dispatched: seq<Alert>, deliveries: seq<Delivery>,
                  S0: set<AlertKey>, D0: seq<Alert>, L0: seq<Delivery>,
                  cfg: NotifyConfig, failing: set<(Sink, AlertKey)>, done: seq<Alert>, a: Alert)
    requires Considered(sent, dispatched, deliveries, S0, D0, L0, cfg, failing, done)
    ensures a.key in sent ==>
      Considered(sent, dispatched, deliveries, S0, D0, L0, cfg, failing, done + [a])
    ensures a.key !in sent ==>
      Considered(sent + {a.key}, dispatched + [a], deliveries + Fanout(cfg, a, failing),
                 S0, D0, L0, cfg, failing, done + [a])
  {
    SentStep(sent, S0, done, a);
    DispatchStep(dispatched, S0, D0, done, a);
    DeliveryStep(deliveries, S0, L0, cfg, failing, done, a);
  }

  lemma SentStep(sent: set<AlertKey>, S0: set<AlertKey>, done: seq<Alert>, a: Alert)
    requires sent == S0 + KeysOf(done)
    ensures sent + {a.key} == S0 + KeysOf(done + [a])
    ensures a.key in sent ==> sent == S0 + KeysOf(done + [a])
  {
    KeysOfAppend(done, [a]);
    assert KeysOf([a]) == {a.key};
  }

  lemma DispatchStep(dispatched: seq<Alert>, S0: set<AlertKey>, D0: seq<Alert>, done: seq<Alert>, a: Alert)
    requires dispatched == D0 + Fresh(S0, done)
    ensures a.key in S0 + KeysOf(done) ==> dispatched == D0 + Fresh(S0, done + [a])
    ensures a.key !in S0 + KeysOf(done) ==> dispatched + [a] == D0 + Fresh(S0, done + [a])
  {
    assert (done + [a])[..|done|] == done;
  }

  lemma DeliveryStep(deliveries: seq<Delivery>, S0: set<AlertKey>, L0: seq<Delivery>,
                     cfg: NotifyConfig, failing: set<(Sink, AlertKey)>, done: seq<Alert>, a: Alert)
    requires deliveries == L0 + FanoutAll(cfg, Fresh(S0, done), failing)
    ensures a.key in S0 + KeysOf(done) ==> deliveries == L0 + FanoutAll(cfg, Fresh(S0, done + [a]), failing)
    ensures a.key !in S0 + KeysOf(done) ==>
      deliveries + Fanout(cfg, a, failing) == L0 + FanoutAll(cfg, Fresh(S0, done + [a]), failing)
  {
    if a.key !in S0 + KeysOf(done) {
      NewKeyDelivers(S0, cfg, failing, done, a);
    } else {
      KnownKeyIsSkipped(S0, done, a);
    }
  }

  lemma KnownKeyIsSkipped(S0: set<AlertKey>, done: seq<Alert>, a: Alert)
    requires a.key in S0 + KeysOf(done)
    ensures Fresh(S0, done + [a]) == Fresh(S0, done)
  {
    assert (done + [a])[..|done|] == done;
  }

  lemma NewKeyDelivers(S0: set<AlertKey>, cfg: NotifyConfig, failing: set<(Sink, AlertKey)>, done: seq<Alert>, a: Alert)
    requires a.key !in S0 + KeysOf(done)
    ensures FanoutAll(cfg, Fresh(S0, done + [a]), failing)
      == FanoutAll(cfg, Fresh(S0, done), failing) + Fanout(cfg, a, failing)
  {
    assert (done + [a])[..|done|] == done;
    assert Fresh(S0, done + [a]) == Fresh(S0, done) + [a];
    FanoutAllSnoc(cfg, Fresh(S0, done), a, failing);
  }

  lemma FanoutAllSnoc(cfg: NotifyConfig, f: seq<Alert>, a: Alert, failing: set<(Sink, AlertKey)>)
    ensures FanoutAll(cfg, f + [a], failing) == FanoutAll(cfg, f, failing) + Fanout(cfg, a, failing)
  {
    assert (f + [a])[..|f|] == f;
  }

  /** Sink isolation: whatever the Teams call does, the email sink is called when it is configured. */
  lemma EmailDespiteTeamsFailure(cfg: NotifyConfig, a: Alert, failing: set<(Sink, AlertKey)>)
    requires cfg.email && (Teams, a.key) in failing
    ensures Delivery(Email, a, (Email, a.key) !in failing) in Fanout(cfg, a, failing)
  {
  }

  // ---------------------------------------------------------------------
  // The manager
  // ---------------------------------------------------------------------

  class AlertManager {
    /** `_last_alert_key_sent` */
    var sent: set<AlertKey>
    /** Every alert handed to `_send_alert`, in order. */
    var dispatched: seq<Alert>
    /** Every sink call made, in order. */
    var deliveries: seq<Delivery>

    /** Every key handed out is in the sent set, the set holds nothing else, and no key was handed out twice. */
    ghost predicate Valid()
      reads this
    {
      KeysOf(dispatched) == sent && DistinctKeys(dispatched)
    }

    /**
     * Starting from sent set `S0`, dispatch log `D0` and sink log `L0`, the
     * manager has considered the candidates `done`, in order, behind the guard.
     */
    ghost predicate Tracks(S0: set<AlertKey>, D0: seq<Alert>, L0: seq<Delivery>,
                           cfg: NotifyConfig, failing: set<(Sink, AlertKey)>, done: seq<Alert>)
      reads this
    {
      Considered(sent, dispatched, deliveries, S0, D0, L0, cfg, failing, done)
    }

    constructor ()
      ensures Valid() && sent == {} && dispatched == [] && deliveries == []
    {
      sent := {};
      dispatched := [];
      deliveries := [];
    }

    /** `_send_alert`: tries each configured sink in turn; no sink failure escapes. */
    method SendAlert(cfg: NotifyConfig, alert: Alert, failing: set<(Sink, AlertKey)>)
      modifies this`deliveries
      ensures deliveries == old(deliveries) + Fanout(cfg, alert, failing)
    {
      if cfg.teamsWebhook {
        var ok := (Teams, alert.key) !in failing;
        deliveries := deliveries + [Delivery(Teams, alert, ok)];
      }
      if cfg.email {
        var ok := (Email, alert.key) !in failing;
        deliveries := deliveries + [Delivery(Email, alert, ok)];
      }
    }

    /**
     * The guard around every send in `run`: send when the key is new, then
     * remember it. `done` are the candidates the pass considered before.
     */
    method Offer(cfg: NotifyConfig, alert: Alert, failing: set<(Sink, AlertKey)>,
                 ghost S0: set<AlertKey>, ghost D0: seq<Alert>, ghost L0: seq<Delivery>, ghost done: seq<Alert>)
      requires Tracks(S0, D0, L0, cfg, failing, done)
      modifies this
      ensures sent == old(sent) + {alert.key}
      ensures dispatched == old(dispatched) + (if alert.key in old(sent) then [] else [alert])
      ensures Tracks(S0, D0, L0, cfg, failing, done + [alert])
    {
      OfferStep(sent, dispatched, deliveries, S0, D0, L0, cfg, failing, done, alert);
      if alert.key !in sent {
        SendAlert(cfg, alert, failing);
        dispatched := dispatched + [alert];
        sent := sent + {alert.key};
      }
    }

    /**
     * One station of `run`: the ping, gap and threshold checks, each behind
     * the guard, after the candidates `prior` of the stations before it.
     */
    method EvaluateStation(s: Station, latest: LatestMap, history: seq<bool>, now: int,
                           cfg: NotifyConfig, failing: set<(Sink, AlertKey)>,
                           ghost S0: set<AlertKey>, ghost D0: seq<Alert>, ghost L0: seq<Delivery>, ghost prior: seq<Alert>)
      requires Tracks(S0, D0, L0, cfg, failing, prior)
      modifies this
      ensures Tracks(S0, D0, L0, cfg, failing, prior + StationCandidates(s, latest, history, now))
    {
      var limit := GetInt(s.pingFailures, 3);
      var hours := GetInt(s.gapHours, 6);
      var rules := GetThresholds(s);
      ghost var c1 := prior + PingCandidates(s.id, Streak(history, limit), limit);
      ghost var c2 := c1 + GapCandidates(s.id, LatestStationTimestamp(latest, s.id), hours, now);
      CheckPing(s.id, history, limit, cfg, failing, S0, D0, L0, prior);
      CheckGap(s.id, latest, hours, now, cfg, failing, S0, D0, L0, c1);
      CheckThresholds(s.id, rules, ParamsOf(latest, s.id), cfg, failing, S0, D0, L0, c2);
      StationCandidatesSplit(prior, s, latest, history, now);
    }

    /** The consecutive-ping-failure check of `run` for one station, after the candidates `head`. */
    method CheckPing(sid: int, history: seq<bool>, limit: int,
                     cfg: NotifyConfig, failing: set<(Sink, AlertKey)>,
                     ghost S0: set<AlertKey>, ghost D0: seq<Alert>, ghost L0: seq<Delivery>, ghost head: seq<Alert>)
      requires Tracks(S0, D0, L0, cfg, failing, head)
      modifies this
      ensures Tracks(S0, D0, L0, cfg, failing, head + PingCandidates(sid, Streak(history, limit), limit))
    {
      var consFails := ConsecutivePingFailures(history, limit);
      if consFails >= limit && limit > 0 {
        var a := Alert(PingFail(sid, consFails), High);
        Offer(cfg, a, failing, S0, D0, L0, head);
      } else {
        assert head + PingCandidates(sid, consFails, limit) == head;
      }
    }

    /** The data-gap check of `run` for one station, after the candidates `head`. */
    method CheckGap(sid: int, latest: LatestMap, hours: int, now: int,
                    cfg: NotifyConfig, failing: set<(Sink, AlertKey)>,
                    ghost S0: set<AlertKey>, ghost D0: seq<Alert>, ghost L0: seq<Delivery>, ghost head: seq<Alert>)
      requires Tracks(S0, D0, L0, cfg, failing, head)
      modifies this
      ensures Tracks(S0, D0, L0, cfg, failing, head + GapCandidates(sid, LatestStationTimestamp(latest, sid), hours, now))
    {
      var latestTs := LatestStationTimestamp(latest, sid);
      if latestTs.None? || now - latestTs.value > hours * SECONDS_PER_HOUR {
        var a := Alert(Gap(sid, hours), Medium);
        Offer(cfg, a, failing, S0, D0, L0, head);
      } else {
        assert head + GapCandidates(sid, latestTs, hours, now) == head;
      }
    }

    /** The threshold loop of `run` for one station, after the candidates `head`. */
    method CheckThresholds(sid: int, rules: seq<Rule>, params: map<string, Latest>,
                           cfg: NotifyConfig, failing: set<(Sink, AlertKey)>,
                           ghost S0: set<AlertKey>, ghost D0: seq<Alert>, ghost L0: seq<Delivery>, ghost head: seq<Alert>)
      requires Tracks(S0, D0, L0, cfg, failing, head)
      modifies this
      ensures Tracks(S0, D0, L0, cfg, failing, head + ThresholdCandidates(sid, rules, params))
    {
      assert head + ThresholdCandidates(sid, rules[..0], params) == head;
      for j := 0 to |rules|
        invariant Tracks(S0, D0, L0, cfg, failing, head + ThresholdCandidates(sid, rules[..j], params))
      {
        ThresholdStep(sid, rules, j, params, head);
        CheckRule(sid, rules[j], params, cfg, failing, S0, D0, L0, head + ThresholdCandidates(sid, rules[..j], params));
      }
      assert rules[..|rules|] == rules;
    }

    /** One iteration of the threshold loop: the rule's parameter is skipped without a reading, else tested against both bounds. */
    method CheckRule(sid: int, rule: Rule, params: map<string, Latest>,
                     cfg: NotifyConfig, failing: set<(Sink, AlertKey)>,
                     ghost S0: set<AlertKey>, ghost D0: seq<Alert>, ghost L0: seq<Delivery>, ghost head: seq<Alert>)
      requires Tracks(S0, D0, L0, cfg, failing, head)
      modifies this
      ensures Tracks(S0, D0, L0, cfg, failing, head + RuleCandidate(sid, rule, params))
    {
      if rule.name !in params {
        assert head + RuleCandidate(sid, rule, params) == head;
        return;
      }
      var val := params[rule.name].value;
      var ts := params[rule.name].timestamp;
      if (rule.min.Some? && val < rule.min.value) || (rule.max.Some? && val > rule.max.value) {
        var a := Alert(Thresh(sid, rule.name, ts), Medium);
        Offer(cfg, a, failing, S0, D0, L0, head);
      } else {
        assert head + RuleCandidate(sid, rule, params) == head;
      }
    }

    /**
     * `run`: skips the pass when the models are not available; otherwise
     * builds the latest-readings map once and evaluates every station in
     * order, sending each alert whose key is new and recording its key.
     */
    method Run(modelsAvailable: bool, now: int, cfg: NotifyConfig, stations: seq<Station>,
               readings: seq<Reading>, pings: map<int, seq<bool>>, failing: set<(Sink, AlertKey)>)
      requires Valid()
      modifies this
      ensures Valid()
      ensures !modelsAvailable ==> sent == old(sent) && dispatched == old(dispatched) && deliveries == old(deliveries)
      ensures modelsAvailable ==> Tracks(old(sent), old(dispatched), old(deliveries), cfg, failing,
                                         PassCandidates(stations, LatestMapOf(readings), pings, now))
    {
      if !modelsAvailable {
        return;
      }
      ghost var S0, D0 := sent, dispatched;
      var latest := LatestReadingsMap(readings);
      EvaluateAll(stations, latest, pings, now, cfg, failing);
      DispatchKeepsGuard(D0, S0, PassCandidates(stations, latest, pings, now));
    }

    /** The station loop of `run`. */
    method EvaluateAll(stations: seq<Station>, latest: LatestMap, pings: map<int, seq<bool>>, now: int,
                       cfg: NotifyConfig, failing: set<(Sink, AlertKey)>)
      modifies this
      ensures Tracks(old(sent), old(dispatched), old(deliveries), cfg, failing,
                     PassCandidates(stations, latest, pings, now))
    {
      ghost var S0, D0, L0 := sent, dispatched, deliveries;
      assert KeysOf([]) == {};
      for i := 0 to |stations|
        invariant Tracks(S0, D0, L0, cfg, failing, PassCandidates(stations[..i], latest, pings, now))
      {
        var s := stations[i];
        var history := if s.id in pings then pings[s.id] else [];
        PassCandidatesStep(stations, i, latest, pings, now);
        EvaluateStation(s, latest, history, now, cfg, failing, S0, D0, L0, PassCandidates(stations[..i], latest, pings, now));
      }
      assert stations[..|stations|] == stations;
    }
  }

  // ---------------------------------------------------------------------
  // Worked cases
  // ---------------------------------------------------------------------

  /** History fail, fail, fail, success, fail: a streak of 3, alerting at limit 3 but not at limit 5. */
  lemma StreakExample(sid: int)
    ensures Streak([false, false, false, true, false], 3) == 3
    ensures PingCandidates(sid, 3, 3) == [Alert(PingFail(sid, 3), High)]
    ensures Streak([false, false, false, true, false], 5) == 3
    ensures PingCandidates(sid, 3, 5) == []
  {
    var h := [false, false, false, true, false];
    assert SearchWindow(h, 3) == h;
    assert SearchWindow(h, 5) == h;
    assert h[1..][1..][1..] == [true, false];
  }

  /** A streak that stays at 3 alerts once over two passes; growing to 4 it alerts again. */
  lemma EscalatingStreak(sid: int, sent: set<AlertKey>)
    requires PingFail(sid, 3) !in sent && PingFail(sid, 4) !in sent
    ensures Fresh(sent, PingCandidates(sid, 3, 3)) == [Alert(PingFail(sid, 3), High)]
    ensures Fresh(sent + {PingFail(sid, 3)}, PingCandidates(sid, 3, 3)) == []
    ensures Fresh(sent + {PingFail(sid, 3)}, PingCandidates(sid, 4, 3)) == [Alert(PingFail(sid, 4), High)]
  {
    var c3 := [Alert(PingFail(sid, 3), High)];
    var c4 := [Alert(PingFail(sid, 4), High)];
    assert c3[..0] == [] && c4[..0] == [];
    assert KeysOf([]) == {};
  }

  /** With a limit of 6 hours, a reading one second past the limit gaps; one second inside does not. */
  lemma GapExample(sid: int, now: int)
    ensures GapCandidates(sid, None, 6, now) == [Alert(Gap(sid, 6), Medium)]
    ensures GapCandidates(sid, Some(now - 6 * SECONDS_PER_HOUR - 1), 6, now) == [Alert(Gap(sid, 6), Medium)]
    ensures GapCandidates(sid, Some(now - 6 * SECONDS_PER_HOUR), 6, now) == []
    ensures GapCandidates(sid, Some(now - 6 * SECONDS_PER_HOUR + 1), 6, now) == []
  {
  }

  /** Battery [11.5, 14.5]: 11.0 breaches and 12.0 does not; X [None, 10.0]: 15.0 breaches. */
  lemma BreachExample()
    ensures Breach(11.0, Rule("Battery", Some(11.5), Some(14.5)))
    ensures !Breach(12.0, Rule("Battery", Some(11.5), Some(14.5)))
    ensures Breach(15.0, Rule("X", None, Some(10.0)))
    ensures !Breach(-1000.0, Rule("X", None, Some(10.0)))
  {
  }
}
