/** Small value types shared by the StatMon daemon modules. */
module Common {

  /** A Python value that may be None. */
  datatype Option<+T> = None | Some(value: T)

  /** The outcome of a call that either completes or raises the named error. */
  datatype Outcome<+E> = Pass | Fail(error: E)

  /**
   * A row of the Reading table: station, parameter name (None when the
   * column is null), value as `float(value)` converts it (None when that
   * conversion raises) and timestamp in whole seconds.
   */
  datatype Reading = Reading(stationId: int, name: Option<string>, value: Option<real>, timestamp: int)

  /** Python truthiness of an optional string: None and "" are false. */
  predicate Truthy(s: Option<string>)
  {
    s.Some? && s.value != ""
  }

  /** Decimal rendering of a natural number, as `str(n)` prints it. */
  function NatString(n: nat): (r: string)
    ensures |r| > 0
    ensures forall i :: 0 <= i < |r| ==> '0' <= r[i] <= '9'
    decreases n
  {
    var d := [(('0' as int) + n % 10) as char];
    if n < 10 then d else NatString(n / 10) + d
  }

  /** Decimal rendering of an integer, as `str(n)` prints it (a leading '-' when negative). */
  function IntString(n: int): (r: string)
    ensures |r| > 0
    ensures r[0] == '-' <==> n < 0
  {
    if n < 0 then "-" + NatString(-n) else NatString(n)
  }

  /** The default display name of a station, f"Station {id}". */
  function StationLabel(id: int): (r: string)
    ensures |r| > 8 && r[..8] == "Station "
  {
    "Station " + IntString(id)
  }

  /** `x or fallback` for a display name: the name itself when truthy, else the station label. */
  function NameOr(name: Option<string>, id: int): (r: string)
    ensures r != ""
    ensures Truthy(name) ==> r == name.value
    ensures !Truthy(name) ==> r == StationLabel(id)
  {
    if Truthy(name) then name.value else StationLabel(id)
  }
}
