/** `EarthquakeLocalizer.CoordinateConverter`: the local flat (equirectangular) projection
  * between latitude/longitude in degrees and east/north kilometres around a reference point,
  * and the averaged reference point of a station triple. */
module CoordinateConverter {
  import opened Wrappers
  import opened RealMath

  /** Mean Earth radius in kilometres. */
  const EarthRadiusKm: real := 6371.0

  datatype LatLon = LatLon(lat: real, lon: real)

  /** East (x) and north (y) kilometres from the reference point. */
  datatype LocalXY = LocalXY(x: real, y: real)

  /** `toLocalXY`: y = R (lat - refLat), x = R (lon - refLon) cos(refLat), angles in radians. */
  function ToLocalXY(trig: Trig, p: LatLon, ref: LatLon): LocalXY
  {
    var latRad := ToRadians(p.lat);
    var lonRad := ToRadians(p.lon);
    var refLatRad := ToRadians(ref.lat);
    var refLonRad := ToRadians(ref.lon);
    var cosRefLat := trig.cos(refLatRad);
    LocalXY(Times(EarthRadiusKm * (lonRad - refLonRad), cosRefLat),
            EarthRadiusKm * (latRad - refLatRad))
  }

  /** `toGlobalLatLon`, the inverse projection. A reference latitude whose cosine is zero
    * (a pole) divides by zero and is excluded. */
  function ToGlobalLatLon(trig: Trig, q: LocalXY, ref: LatLon): LatLon
    requires trig.cos(ToRadians(ref.lat)) != 0.0
  {
    var refLatRad := ToRadians(ref.lat);
    var cosRefLat := trig.cos(refLatRad);
    var dLonRad := q.x / (EarthRadiusKm * cosRefLat);
    var dLatRad := q.y / EarthRadiusKm;
    var finalLatRad := refLatRad + dLatRad;
    var finalLonRad := ToRadians(ref.lon) + dLonRad;
    LatLon(ToDegrees(finalLatRad), ToDegrees(finalLonRad))
  }

  /** The reference point is the origin of the local plane. */
  lemma ReferenceIsOrigin(trig: Trig, ref: LatLon)
    ensures ToLocalXY(trig, ref, ref) == LocalXY(0.0, 0.0)
  {
  }

  /** Projecting and projecting back gives the original coordinates (exactly, over reals). */
  lemma GlobalOfLocal(trig: Trig, p: LatLon, ref: LatLon)
    requires trig.cos(ToRadians(ref.lat)) != 0.0
    ensures ToGlobalLatLon(trig, ToLocalXY(trig, p, ref), ref) == p
  {
    var c := trig.cos(ToRadians(ref.lat));
    var q := ToLocalXY(trig, p, ref);
    assert q.x / (EarthRadiusKm * c) == ToRadians(p.lon) - ToRadians(ref.lon);
    assert q.y / EarthRadiusKm == ToRadians(p.lat) - ToRadians(ref.lat);
    DegreesRoundTrip(p.lat);
    DegreesRoundTrip(p.lon);
  }

  /** Going back to degrees and projecting again gives the original kilometres. */
  lemma LocalOfGlobal(trig: Trig, q: LocalXY, ref: LatLon)
    requires trig.cos(ToRadians(ref.lat)) != 0.0
    ensures ToLocalXY(trig, ToGlobalLatLon(trig, q, ref), ref) == q
  {
    var c := trig.cos(ToRadians(ref.lat));
    var p := ToGlobalLatLon(trig, q, ref);
    var dLon := q.x / (EarthRadiusKm * c);
    var dLat := q.y / EarthRadiusKm;
    RadiansRoundTrip(ToRadians(ref.lat) + dLat);
    RadiansRoundTrip(ToRadians(ref.lon) + dLon);
    assert ToRadians(p.lat) - ToRadians(ref.lat) == dLat;
    assert ToRadians(p.lon) - ToRadians(ref.lon) == dLon;
    assert EarthRadiusKm * dLon * c == q.x;
  }

  // ---------------------------------------------------------------- reference point

  function SumLat(s: seq<LatLon>): real
  {
    if s == [] then 0.0 else SumLat(s[..|s| - 1]) + s[|s| - 1].lat
  }

  function SumLon(s: seq<LatLon>): real
  {
    if s == [] then 0.0 else SumLon(s[..|s| - 1]) + s[|s| - 1].lon
  }

  /** The componentwise mean of the coordinates. */
  function MeanPoint(coords: seq<LatLon>): LatLon
    requires coords != []
  {
    LatLon(SumLat(coords) / |coords| as real, SumLon(coords) / |coords| as real)
  }

  /** The exception of `calculateReferencePointForThreeStations` for an empty list. */
  datatype ReferenceError = EmptyCoordinates

  /** `calculateReferencePointForThreeStations`: the mean of the coordinates, an error for
    * an empty list. */
  method CalculateReferencePoint(coords: seq<LatLon>) returns (res: Result<LatLon, ReferenceError>)
    ensures coords == [] <==> res.Err?
    ensures res.Ok? ==> res.value == MeanPoint(coords)
  {
    if coords == [] {
      return Err(EmptyCoordinates);
    }
    var sumLat, sumLon := 0.0, 0.0;
    for i := 0 to |coords|
      invariant sumLat == SumLat(coords[..i]) && sumLon == SumLon(coords[..i])
    {
      assert coords[..i + 1][..i] == coords[..i];
      sumLat := sumLat + coords[i].lat;
      sumLon := sumLon + coords[i].lon;
    }
    assert coords[..|coords|] == coords;
    return Ok(LatLon(sumLat / |coords| as real, sumLon / |coords| as real));
  }

  /** Stations that all sit at one point have that point as their reference. */
  lemma {:induction false} MeanOfIdenticalPoints(coords: seq<LatLon>, p: LatLon)
    requires coords != []
    requires forall i :: 0 <= i < |coords| ==> coords[i] == p
    ensures MeanPoint(coords) == p
  {
    SumsOfIdentical(coords, p);
  }

  lemma {:induction false} SumsOfIdentical(coords: seq<LatLon>, p: LatLon)
    requires forall i :: 0 <= i < |coords| ==> coords[i] == p
    ensures SumLat(coords) == |coords| as real * p.lat
    ensures SumLon(coords) == |coords| as real * p.lon
  {
    if coords != [] {
      SumsOfIdentical(coords[..|coords| - 1], p);
    }
  }
}
