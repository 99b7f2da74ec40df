/**
 * The spatio-temporal join of one incident with one weather field: the coverage
 * gate, resolution of (date, latitude, longitude) to a (time, lat, lon) index
 * triple, and the read of that grid cell.
 */
module Join {
  import opened Outcomes
  import opened Nearest
  import opened Calendar

  /** A 3-D weather field indexed by (time step, latitude index, longitude index). */
  type Field<V> = seq<seq<seq<V>>>

  /** The columns of an incident row that the join reads. */
  datatype Incident = Incident(iyear: int, imonth: int, iday: int, latitude: real, longitude: real)

  /** A resolved join key: one cell of the grid. */
  datatype Cell = Cell(time: nat, lat: nat, lon: nat)

  /** Every time slice has one row per grid latitude and one entry per grid longitude. */
  predicate WellShaped<V>(field: Field<V>, nlat: nat, nlon: nat)
  {
    forall t :: 0 <= t < |field| ==>
      |field[t]| == nlat && forall i :: 0 <= i < nlat ==> |field[t][i]| == nlon
  }

  /**
   * The coverage gate as written: every year up to and including 2012 is dropped,
   * and of 2017 only months 1 to 6 are kept. Later years pass the gate.
   */
  predicate InCoverage(iyear: int, imonth: int): (covered: bool)
    ensures covered ==> iyear >= 2013
    ensures (2013 <= iyear <= 2016 || iyear >= 2018) ==> covered
    ensures iyear == 2017 ==> (covered <==> imonth <= 6)
  {
    iyear > 2012 && !(iyear == 2017 && imonth > 6)
  }

  /** Every incident that passes the gate lies at least 366 days after the epoch. */
  lemma CoveredDatesAfter2012(y: int, m: int, d: int)
    requires InCoverage(y, m) && ValidDate(y, m, d)
    ensures DaysFromEpoch(y, m, d).value >= 366
  {
    DaysFromEpochMonotone(2013, 1, 1, y, m, d);
    if !DateBefore(2013, 1, 1, y, m, d) {
      assert (y, m, d) == (2013, 1, 1);
    }
  }

  /**
   * Resolution of a gated incident to a grid cell, in the order the source
   * evaluates it: day offset, then latitude index, then longitude index.
   */
  function Resolve(row: Incident, lats: seq<real>, lons: seq<real>): (r: Result<Cell>)
    requires InCoverage(row.iyear, row.imonth)
    ensures r.Err? <==> !ValidDate(row.iyear, row.imonth, row.iday) || |lats| == 0 || |lons| == 0
    ensures r.Err? && !ValidDate(row.iyear, row.imonth, row.iday) ==> r.fault == InvalidDate
    ensures r.Err? && ValidDate(row.iyear, row.imonth, row.iday) ==> r.fault == EmptyAxis
    ensures r.Ok? ==>
      r.value.time >= 366 &&
      DaysFromEpoch(row.iyear, row.imonth, row.iday) == Ok(r.value.time) &&
      IsFirstNearest(lats, row.latitude, r.value.lat) &&
      IsFirstNearest(lons, row.longitude + 180.0, r.value.lon)
  {
    match DaysFromEpoch(row.iyear, row.imonth, row.iday)
    case Err(f) => Err(f)
    case Ok(t) =>
      CoveredDatesAfter2012(row.iyear, row.imonth, row.iday);
      match LatIndex(lats, row.latitude)
      case Err(f) => Err(f)
      case Ok(i) =>
        match LonIndex(lons, row.longitude)
        case Err(f) => Err(f)
        case Ok(j) => Ok(Cell(t, i, j))
  }

  /** `w_col[t, i, j]`: numpy raises IndexError outside the field's shape. */
  function Read<V>(field: Field<V>, c: Cell): (r: Result<V>)
    ensures r.Ok? <==> c.time < |field| && c.lat < |field[c.time]| && c.lon < |field[c.time][c.lat]|
    ensures r.Ok? ==> r.value == field[c.time][c.lat][c.lon]
    ensures r.Err? ==> r.fault == IndexOutOfRange
  {
    if c.time < |field| && c.lat < |field[c.time]| && c.lon < |field[c.time][c.lat]| then
      Ok(field[c.time][c.lat][c.lon])
    else
      Err(IndexOutOfRange)
  }

  /**
   * `connect(row, w_col)`: a missing value outside coverage, otherwise the field's
   * value at the resolved cell, or the fault that would end the run.
   */
  function Connect<V>(row: Incident, lats: seq<real>, lons: seq<real>, field: Field<V>): (r: Result<Option<V>>)
    ensures r == Ok(None) <==> !InCoverage(row.iyear, row.imonth)
    ensures row.iyear <= 2012 ==> r == Ok(None)
    ensures row.iyear == 2017 && row.imonth > 6 ==> r == Ok(None)
    ensures r.Ok? && r.value.Some? ==>
      InCoverage(row.iyear, row.imonth) &&
      Resolve(row, lats, lons).Ok? &&
      Read(field, Resolve(row, lats, lons).value) == Ok(r.value.value)
    ensures r.Err? ==>
      InCoverage(row.iyear, row.imonth) &&
      ((Resolve(row, lats, lons).Err? && r.fault == Resolve(row, lats, lons).fault) ||
       (Resolve(row, lats, lons).Ok? && Read(field, Resolve(row, lats, lons).value) == Err(r.fault)))
  {
    if row.iyear > 2012 then
      if row.iyear == 2017 && row.imonth > 6 then
        Ok(None)
      else
        match Resolve(row, lats, lons)
        case Err(f) => Err(f)
        case Ok(c) =>
          match Read(field, c)
          case Err(f) => Err(f)
          case Ok(x) => Ok(Some(x))
    else
      Ok(None)
  }

  /**
   * On a well-shaped field with non-empty axes, a gated incident with a valid date
   * is read successfully exactly when its day offset is below the number of time
   * steps; the source does not check this bound itself.
   */
  lemma ConnectReadsCell<V>(row: Incident, lats: seq<real>, lons: seq<real>, field: Field<V>)
    requires WellShaped(field, |lats|, |lons|) && |lats| > 0 && |lons| > 0
    requires InCoverage(row.iyear, row.imonth) && ValidDate(row.iyear, row.imonth, row.iday)
    ensures var t := DaysFromEpoch(row.iyear, row.imonth, row.iday).value;
      Connect(row, lats, lons, field).Ok? <==> t < |field|
    ensures var t := DaysFromEpoch(row.iyear, row.imonth, row.iday).value;
      var i := NearestIndex(lats, row.latitude);
      var j := NearestIndex(lons, ShiftLongitude(row.longitude));
      t < |field| ==> Connect(row, lats, lons, field) == Ok(Some(field[t][i][j]))
  {
    var c := Resolve(row, lats, lons).value;
    FirstNearestUnique(lats, row.latitude, c.lat, NearestIndex(lats, row.latitude));
    FirstNearestUnique(lons, row.longitude + 180.0, c.lon, NearestIndex(lons, ShiftLongitude(row.longitude)));
  }

  /** Every gated date up to June 2017 is at most 2007 days after the epoch (2017-06-30). */
  lemma CoveredDatesUpToJune2017(y: int, m: int, d: int)
    requires InCoverage(y, m) && ValidDate(y, m, d) && y <= 2017
    ensures DaysFromEpoch(y, m, d).value <= 2007
  {
    DaysFromEpochMonotone(y, m, d, 2017, 6, 30);
    if !DateBefore(y, m, d, 2017, 6, 30) {
      assert (y, m, d) == (2017, 6, 30);
    }
  }

  /**
   * A grid of more than 2007 daily steps (2012-01-01 to 2017-06-30) with non-empty
   * axes never makes the join fail for a gated incident dated up to 2017.
   */
  lemma FullGridNeverFaults<V>(row: Incident, lats: seq<real>, lons: seq<real>, field: Field<V>)
    requires WellShaped(field, |lats|, |lons|) && |lats| > 0 && |lons| > 0 && |field| > 2007
    requires ValidDate(row.iyear, row.imonth, row.iday) && row.iyear <= 2017
    ensures Connect(row, lats, lons, field).Ok?
  {
    if InCoverage(row.iyear, row.imonth) {
      CoveredDatesUpToJune2017(row.iyear, row.imonth, row.iday);
      ConnectReadsCell(row, lats, lons, field);
    }
  }

  /**
   * Whether a value is missing depends on the row's year and month alone, never on
   * the field read: for any two fields a row is missing in both or in neither.
   */
  lemma MissingTogether<V>(row: Incident, lats: seq<real>, lons: seq<real>, f: Field<V>, g: Field<V>)
    ensures Connect(row, lats, lons, f) == Ok(None) <==> Connect(row, lats, lons, g) == Ok(None)
  {
  }
}
