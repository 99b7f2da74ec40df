/**
 * Nearest-neighbour resolution of a coordinate to an index of a 1-D grid axis:
 * `np.abs(axis - v).argmin()`, with exact reals in place of floats.
 */
module Nearest {
  import opened Outcomes

  /** Absolute difference between an axis value and the query. */
  function Dist(a: real, v: real): (d: real)
    ensures d >= 0.0
    ensures d == 0.0 <==> a == v
  {
    if a < v then v - a else a - v
  }

  /**
   * `i` is the index numpy's argmin returns on `|axis - v|`: no entry is strictly
   * closer, and every entry before `i` is strictly farther (the first minimum wins).
   */
  predicate IsFirstNearest(axis: seq<real>, v: real, i: int)
  {
    0 <= i < |axis| &&
    (forall j :: 0 <= j < |axis| ==> Dist(axis[i], v) <= Dist(axis[j], v)) &&
    (forall j :: 0 <= j < i ==> Dist(axis[i], v) < Dist(axis[j], v))
  }

  /**
   * Left-to-right argmin over a non-empty axis: the running minimum is replaced
   * only by a strictly smaller distance.
   */
  function NearestIndex(axis: seq<real>, v: real): (i: nat)
    requires |axis| > 0
    ensures IsFirstNearest(axis, v, i)
    decreases |axis|
  {
    if |axis| == 1 then 0
    else
      var last := |axis| - 1;
      var prefix := axis[..last];
      var k := NearestIndex(prefix, v);
      assert forall j :: 0 <= j < last ==> axis[j] == prefix[j];
      if Dist(axis[last], v) < Dist(axis[k], v) then last else k
  }

  /** At most one index is the first nearest one, so argmin is determined by `IsFirstNearest`. */
  lemma FirstNearestUnique(axis: seq<real>, v: real, i: int, j: int)
    requires IsFirstNearest(axis, v, i) && IsFirstNearest(axis, v, j)
    ensures i == j
  {
    var di, dj := Dist(axis[i], v), Dist(axis[j], v);
    assert i < j ==> dj < di;
    assert j < i ==> di < dj;
  }

  /** A query that lies exactly on the axis resolves to an entry equal to it. */
  lemma ExactHit(axis: seq<real>, v: real, j: nat)
    requires j < |axis| && axis[j] == v
    ensures axis[NearestIndex(axis, v)] == v
  {
    var i := NearestIndex(axis, v);
    assert Dist(axis[i], v) <= Dist(axis[j], v);
  }

  /** `np.abs(axis - v).argmin()`: numpy raises on an empty array. */
  function Argmin(axis: seq<real>, v: real): (r: Result<nat>)
    ensures r.Err? <==> |axis| == 0
    ensures r.Err? ==> r.fault == EmptyAxis
    ensures r.Ok? ==> IsFirstNearest(axis, v, r.value)
  {
    if |axis| == 0 then Err(EmptyAxis) else Ok(NearestIndex(axis, v))
  }

  /** Latitude index: nearest grid latitude to the raw incident latitude. */
  function LatIndex(lats: seq<real>, latitude: real): (r: Result<nat>)
    ensures r.Err? <==> |lats| == 0
    ensures r.Ok? ==> IsFirstNearest(lats, latitude, r.value)
  {
    Argmin(lats, latitude)
  }

  /**
   * Conversion of an incident longitude (-180..180) to the grid convention (0..360):
   * a flat shift by 180 degrees, exactly as written, not a modulo-360 conversion.
   */
  function ShiftLongitude(longitude: real): (shifted: real)
    ensures -180.0 <= longitude <= 180.0 ==> 0.0 <= shifted <= 360.0
    ensures shifted - longitude == 180.0
  {
    longitude + 180.0
  }

  /** Longitude index: nearest grid longitude to the SHIFTED incident longitude. */
  function LonIndex(lons: seq<real>, longitude: real): (r: Result<nat>)
    ensures r.Err? <==> |lons| == 0
    ensures r.Ok? ==> IsFirstNearest(lons, longitude + 180.0, r.value)
  {
    Argmin(lons, ShiftLongitude(longitude))
  }

  /**
   * An incident at longitude 44 on an axis holding 44 and 224 resolves to the entry
   * 224 (index 1), not to the entry equal to its own longitude.
   */
  lemma ShiftedLookupExample()
    ensures LonIndex([44.0, 224.0], 44.0) == Ok(1)
    ensures LatIndex([44.0, 224.0], 44.0) == Ok(0)
  {
    assert IsFirstNearest([44.0, 224.0], 224.0, 1);
    FirstNearestUnique([44.0, 224.0], 224.0, 1, NearestIndex([44.0, 224.0], 224.0));
    assert IsFirstNearest([44.0, 224.0], 44.0, 0);
  }
}
