/** `JacksonQuakeParser`: the observer that turns the catalogue's JSON feed into the five
  * nearest earthquakes. JSON tree parsing is abstracted: a feed is the sequence of each
  * feature's `properties` already read out (or `None` when the text is not JSON), the ISO
  * time parser and the haversine distance are supplied by the caller. */
module JacksonQuakeParser {
  import opened Wrappers
  import opened RealMath
  import opened StableSort

  const KrasnodarLat: real := 45.04
  const KrasnodarLon: real := 38.98
  const DefaultMagnitudeThreshold: real := 4.0
  const MaxMagnitudeThreshold: real := 12.0
  const MagnitudeEps: real := 0.0000000001

  /** `LocalDateTime`, the value `LocalDateTime.parse` produces. */
  datatype LocalDateTime = LocalDateTime(year: int, month: int, day: int, hour: int, minute: int, second: int, nano: int)

  /** `EarthquakeFeature`: coordinates are stored as the list (lon, lat). */
  datatype EarthquakeFeature = EarthquakeFeature(flynnRegion: string, absoluteTime: LocalDateTime,
                                                 coordinates: seq<real>, depth: real, momentMagnitude: real)

  /** The fields `update` reads from a feature's `properties` node. */
  datatype Properties = Properties(evtype: string, time: string, magtype: string, mag: real,
                                   lon: real, lat: real, depth: real, flynnRegion: string)

  /** `QuakePair`: a feature and its distance to Krasnodar in km. */
  datatype QuakePair = QuakePair(feature: EarthquakeFeature, distance: real)

  /** How a call of `update` ended: the list was replaced; the text was not JSON (caught and
    * reported, nothing changes); a time field did not parse (the exception leaves `update`,
    * nothing changes). */
  datatype UpdateOutcome = Updated | Unparsable | BadTime

  /** `EarthquakeFeature.haversine(lat1, lon1, lat2, lon2)`. */
  type Haversine = (real, real, real, real) -> real

  // ---------------------------------------------------------------- magnitude rules

  /** `validateThreshold`: negative thresholds fall back to the default, thresholds above 12
    * are capped at 12, others are kept. */
  function ClampedThreshold(newThreshold: real): (r: real)
  {
    if newThreshold < 0.0 then DefaultMagnitudeThreshold
    else if newThreshold > MaxMagnitudeThreshold then MaxMagnitudeThreshold
    else newThreshold
  }

  /** Every threshold the parser can hold lies in [0, 12], thresholds already there are kept
    * and clamping twice changes nothing more. */
  lemma ClampedThresholdRange(t: real)
    ensures 0.0 <= ClampedThreshold(t) <= 12.0
    ensures 0.0 <= t <= 12.0 <==> ClampedThreshold(t) == t
    ensures ClampedThreshold(ClampedThreshold(t)) == ClampedThreshold(t)
  {
  }

  /** `convertToMw`: body-wave ("mb") and local ("ml") magnitudes by the empirical linear
    * rules, any other scale taken as moment magnitude. */
  function ConvertToMw(curType: string, mag: real): real
  {
    if curType == "mb" then 0.67 * mag + 2.07
    else if curType == "ml" then 0.85 * mag + 0.15
    else mag
  }

  /** The conversion preserves the order of magnitudes on every scale. */
  lemma ConvertToMwMonotone(curType: string, m1: real, m2: real)
    requires m1 <= m2
    ensures ConvertToMw(curType, m1) <= ConvertToMw(curType, m2)
    ensures m1 < m2 ==> ConvertToMw(curType, m1) < ConvertToMw(curType, m2)
  {
  }

  /** `Math.round(x * 10.0) / 10.0`: rounding to one decimal. */
  function RoundToTenth(x: real): real
  {
    JavaRound(x * 10.0) as real / 10.0
  }

  lemma RoundToTenthBounds(x: real)
    ensures x - 0.05 < RoundToTenth(x) <= x + 0.05
  {
    var r := JavaRound(x * 10.0) as real;
    assert r - 0.5 <= x * 10.0 < r + 0.5;
    assert RoundToTenth(x) == r / 10.0;
    assert (r - 0.5) / 10.0 <= x < (r + 0.5) / 10.0;
  }

  lemma RoundToTenthMonotone(x: real, y: real)
    requires x <= y
    ensures RoundToTenth(x) <= RoundToTenth(y)
  {
    assert x * 10.0 <= y * 10.0;
    assert (x * 10.0 + 0.5).Floor <= (y * 10.0 + 0.5).Floor;
  }

  /** `invalidMagnitude`: the magnitude rounded to one decimal, plus 1e-10, is below the
    * threshold. */
  predicate InvalidMagnitude(momentMagnitude: real, threshold: real)
  {
    RoundToTenth(momentMagnitude) + MagnitudeEps < threshold
  }

  /** A magnitude at least 0.05 above the threshold always passes, and a magnitude that fails
    * makes every smaller one fail. */
  lemma InvalidMagnitudeProperties(m1: real, m2: real, threshold: real)
    ensures m1 > threshold + 0.05 ==> !InvalidMagnitude(m1, threshold)
    ensures m1 <= m2 && InvalidMagnitude(m2, threshold) ==> InvalidMagnitude(m1, threshold)
  {
    RoundToTenthBounds(m1);
    if m1 <= m2 {
      RoundToTenthMonotone(m1, m2);
    }
  }

  /** The magnitude stored in a feature: `Math.round((Mw * 10000.0) / 1000.0) / 10.0`. */
  function StoredMagnitude(momentMagnitude: real): real
  {
    JavaRound((momentMagnitude * 10000.0) / 1000.0) as real / 10.0
  }

  /** The stored magnitude is the moment magnitude rounded to one decimal. */
  lemma StoredMagnitudeRounds(momentMagnitude: real)
    ensures StoredMagnitude(momentMagnitude) == RoundToTenth(momentMagnitude)
    ensures momentMagnitude - 0.05 < StoredMagnitude(momentMagnitude) <= momentMagnitude + 0.05
  {
    assert (momentMagnitude * 10000.0) / 1000.0 == momentMagnitude * 10.0;
    RoundToTenthBounds(momentMagnitude);
  }

  // ---------------------------------------------------------------- the Eurasia box

  /** Java's `%` on doubles: the remainder of truncated division, with the sign of `x`. */
  function FMod(x: real, m: real): (r: real)
    requires m > 0.0
    ensures x >= 0.0 ==> 0.0 <= r < m
    ensures x < 0.0 ==> -m < r <= 0.0
  {
    TruncatedRemainder(x, m);
    x - m * Truncate(x / m) as real
  }

  lemma TruncatedRemainder(x: real, m: real)
    requires m > 0.0
    ensures var r := x - m * Truncate(x / m) as real;
            (x >= 0.0 ==> 0.0 <= r < m) && (x < 0.0 ==> -m < r <= 0.0)
  {
    var q := x / m;
    DivideByPositive(x, m);
    var t := Truncate(q) as real;
    if x >= 0.0 {
      RemainderBelowStep(x, m, q, t);
      RemainderNonNegative(x, m, q, t);
    } else {
      RemainderAboveMinusStep(x, m, q, t);
      RemainderNonPositive(x, m, q, t);
    }
  }

  lemma DivideByPositive(x: real, m: real)
    requires m > 0.0
    ensures m * (x / m) == x
    ensures x >= 0.0 <==> x / m >= 0.0
  {
  }

  // The four bounds on x - m * t, where q = x / m and t is the whole part of q, are kept in
  // separate lemmas: the solver's nonlinear reasoning does not find them together.

  lemma RemainderBelowStep(x: real, m: real, q: real, t: real)
    requires m > 0.0 && m * q == x && q - t < 1.0
    ensures x - m * t < m
  {
    ScaleLt(m, q - t, 1.0);
    assert m * (q - t) == m * q - m * t;
  }

  lemma RemainderNonNegative(x: real, m: real, q: real, t: real)
    requires m > 0.0 && m * q == x && 0.0 <= q - t
    ensures 0.0 <= x - m * t
  {
    ScaleLe(m, 0.0, q - t);
    assert m * (q - t) == m * q - m * t;
  }

  lemma RemainderAboveMinusStep(x: real, m: real, q: real, t: real)
    requires m > 0.0 && m * q == x && -1.0 < q - t
    ensures -m < x - m * t
  {
    ScaleLt(m, -1.0, q - t);
    assert m * (q - t) == m * q - m * t;
  }

  lemma RemainderNonPositive(x: real, m: real, q: real, t: real)
    requires m > 0.0 && m * q == x && q - t <= 0.0
    ensures x - m * t <= 0.0
  {
    ScaleLe(m, q - t, 0.0);
    assert m * (q - t) == m * q - m * t;
  }

  lemma ScaleLe(m: real, a: real, b: real)
    requires m > 0.0 && a <= b
    ensures m * a <= m * b
  {
    assert m * b - m * a == m * (b - a);
  }

  lemma ScaleLt(m: real, a: real, b: real)
    requires m > 0.0 && a < b
    ensures m * a < m * b
  {
    assert m * b - m * a == m * (b - a);
  }

  /** The longitude brought into (-180, 180] as `notEurasia` does it. */
  function NormalizedLon(lon: real): (r: real)
    ensures -180.0 < r <= 180.0
  {
    var n := FMod(lon + 180.0, 360.0);
    (if n <= 0.0 then n + 360.0 else n) - 180.0
  }

  /** The number of whole turns `NormalizedLon` removes. */
  function Turns(lon: real): int
  {
    var x := lon + 180.0;
    var t := Truncate(x / 360.0);
    var n := x - 360.0 * t as real;
    if n <= 0.0 then t - 1 else t
  }

  lemma NormalizedLonTurns(lon: real)
    ensures NormalizedLon(lon) == lon - 360.0 * Turns(lon) as real
  {
  }

  /** Two longitudes in (-180, 180] that differ by whole turns are equal. */
  lemma SameTurnClass(r1: real, r2: real, k: int)
    requires -180.0 < r1 <= 180.0 && -180.0 < r2 <= 180.0
    requires r1 - r2 == 360.0 * k as real
    ensures r1 == r2
  {
    assert -360.0 < 360.0 * k as real < 360.0;
  }

  /** `NormalizedLon` keeps (-180, 180] as it is and ignores whole turns. */
  lemma NormalizedLonProperties(lon: real, k: int)
    ensures -180.0 < lon <= 180.0 ==> NormalizedLon(lon) == lon
    ensures NormalizedLon(lon + 360.0 * k as real) == NormalizedLon(lon)
  {
    NormalizedLonTurns(lon);
    if -180.0 < lon <= 180.0 {
      SameTurnClass(NormalizedLon(lon), lon, -Turns(lon));
    }
    var shifted := lon + 360.0 * k as real;
    NormalizedLonTurns(shifted);
    SameTurnClass(NormalizedLon(shifted), NormalizedLon(lon), Turns(lon) + k - Turns(shifted));
  }

  /** `notEurasia`: outside the box latitude [-10, 82], normalised longitude [-10, 180]. */
  predicate NotEurasia(lat: real, lon: real)
  {
    var normalizedLon := NormalizedLon(lon);
    !(lat >= -10.0 && lat <= 82.0 && normalizedLon >= -10.0 && normalizedLon <= 180.0)
  }

  /** For a longitude given in (-180, 180] the box is read directly; any other longitude is
    * judged as its equivalent in that range. */
  lemma NotEurasiaBox(lat: real, lon: real, k: int)
    ensures -180.0 < lon <= 180.0 ==> (NotEurasia(lat, lon) <==> !(-10.0 <= lat <= 82.0 && -10.0 <= lon))
    ensures NotEurasia(lat, lon + 360.0 * k as real) <==> NotEurasia(lat, lon)
  {
    NormalizedLonProperties(lon, k);
  }

  // ---------------------------------------------------------------- update

  /** `raw.replace("Z", "")`. */
  function RemoveZ(raw: string): (r: string)
    ensures 'Z' !in r
    ensures |r| <= |raw|
  {
    if raw == [] then []
    else RemoveZ(raw[..|raw| - 1]) + (if raw[|raw| - 1] == 'Z' then [] else [raw[|raw| - 1]])
  }

  /** The distance from Krasnodar to the feature, measured to (lat, lon); see `## Findings`
    * in the README for the argument order of the source. */
  function QuakeDistance(haversine: Haversine, p: Properties): real
  {
    haversine(KrasnodarLat, KrasnodarLon, p.lat, p.lon)
  }

  /** The call as written: longitude passed as `lat2` and latitude as `lon2`. */
  function QuakeDistanceAsWritten(haversine: Haversine, p: Properties): real
  {
    haversine(KrasnodarLat, KrasnodarLon, p.lon, p.lat)
  }

  /** A feature the loop of `update` keeps: an earthquake inside the box whose magnitude
    * passes the threshold. */
  predicate Accepted(p: Properties, threshold: real)
  {
    p.evtype == "ke" && !NotEurasia(p.lat, p.lon) && !InvalidMagnitude(ConvertToMw(p.magtype, p.mag), threshold)
  }

  /** A way of measuring a feature's distance to Krasnodar. */
  type Measure = Properties -> real

  /** The measure `update` uses: the haversine call with the arguments as written. */
  function AsWrittenMeasure(haversine: Haversine): Measure
  {
    p => QuakeDistanceAsWritten(haversine, p)
  }

  /** The measure with the arguments in their intended order. */
  function IntendedMeasure(haversine: Haversine): Measure
  {
    p => QuakeDistance(haversine, p)
  }

  function PairOf(p: Properties, time: LocalDateTime, distance: Measure): QuakePair
  {
    var momentMag := ConvertToMw(p.magtype, p.mag);
    QuakePair(EarthquakeFeature(p.flynnRegion, time, [p.lon, p.lat], p.depth, StoredMagnitude(momentMag)),
              distance(p))
  }

  /** The pairs the loop of `update` collects with the given distance measure, or `None` when
    * an earthquake's time does not parse (the time is parsed for every "ke" feature before the
    * other tests). */
  function CollectPairs(ps: seq<Properties>, parseTime: string -> Option<LocalDateTime>,
                        distance: Measure, threshold: real): Option<seq<QuakePair>>
  {
    if ps == [] then Some([])
    else
      match CollectPairs(ps[..|ps| - 1], parseTime, distance, threshold)
      case None => None
      case Some(acc) =>
        var p := ps[|ps| - 1];
        if p.evtype != "ke" then Some(acc)
        else
          var time := parseTime(RemoveZ(p.time));
          if time.None? then None
          else if !Accepted(p, threshold) then Some(acc)
          else Some(acc + [PairOf(p, time.value, distance)])
  }

  function PairDistance(q: QuakePair): real { q.distance }

  function Features(pairs: seq<QuakePair>): (r: seq<EarthquakeFeature>)
    ensures |r| == |pairs|
  {
    seq(|pairs|, i requires 0 <= i < |pairs| => pairs[i].feature)
  }

  /** The features kept by `update`: at most five pairs, the nearest first. */
  function Nearest(pairs: seq<QuakePair>): seq<EarthquakeFeature>
  {
    var sorted := SortBy(pairs, PairDistance);
    Features(sorted[..MinInt(5, |sorted|)])
  }

  /** Every collected pair comes from an accepted earthquake of the feed. */
  lemma {:induction false} CollectedAreAccepted(ps: seq<Properties>, parseTime: string -> Option<LocalDateTime>,
                                                distance: Measure, threshold: real)
    ensures var r := CollectPairs(ps, parseTime, distance, threshold);
            r.Some? ==> forall k :: 0 <= k < |r.value| ==>
              exists j :: 0 <= j < |ps| && Accepted(ps[j], threshold)
                          && r.value[k].distance == distance(ps[j])
  {
    if ps != [] {
      var init := ps[..|ps| - 1];
      CollectedAreAccepted(init, parseTime, distance, threshold);
      var r := CollectPairs(ps, parseTime, distance, threshold);
      if r.Some? {
        var acc := CollectPairs(init, parseTime, distance, threshold).value;
        forall k | 0 <= k < |r.value|
          ensures exists j :: 0 <= j < |ps| && Accepted(ps[j], threshold)
                              && r.value[k].distance == distance(ps[j])
        {
          if k < |acc| {
            assert r.value[k] == acc[k];
            var j :| 0 <= j < |init| && Accepted(init[j], threshold)
                     && acc[k].distance == distance(init[j]);
            assert ps[j] == init[j];
          } else {
            assert ps[|ps| - 1] == ps[|ps| - 1];
          }
        }
      }
    }
  }

  /** The measure decides only the distances: with any two measures the same feeds fail, and
    * the same features are collected in the same order. */
  lemma {:induction false} CollectIgnoresMeasure(ps: seq<Properties>, parseTime: string -> Option<LocalDateTime>,
                                                 d1: Measure, d2: Measure, threshold: real)
    ensures var r1 := CollectPairs(ps, parseTime, d1, threshold);
            var r2 := CollectPairs(ps, parseTime, d2, threshold);
            r1.None? == r2.None? && (r1.Some? ==> Features(r1.value) == Features(r2.value))
  {
    if ps != [] {
      var init := ps[..|ps| - 1];
      CollectIgnoresMeasure(init, parseTime, d1, d2, threshold);
      var a1 := CollectPairs(init, parseTime, d1, threshold);
      var a2 := CollectPairs(init, parseTime, d2, threshold);
      if a1.Some? {
        var p := ps[|ps| - 1];
        var time := parseTime(RemoveZ(p.time));
        if p.evtype == "ke" && time.Some? && Accepted(p, threshold) {
          assert Features(a1.value + [PairOf(p, time.value, d1)]) == Features(a1.value) + [PairOf(p, time.value, d1).feature];
          assert Features(a2.value + [PairOf(p, time.value, d2)]) == Features(a2.value) + [PairOf(p, time.value, d2).feature];
        }
      }
    }
  }

  /** The collection fails exactly when some earthquake of the feed has a time that does not
    * parse. */
  lemma {:induction false} CollectCount(ps: seq<Properties>, parseTime: string -> Option<LocalDateTime>,
                                        distance: Measure, threshold: real)
    ensures var r := CollectPairs(ps, parseTime, distance, threshold);
            r.None? <==> exists j :: 0 <= j < |ps| && ps[j].evtype == "ke" && parseTime(RemoveZ(ps[j].time)).None?
  {
    if ps != [] {
      var init := ps[..|ps| - 1];
      CollectCount(init, parseTime, distance, threshold);
      var r := CollectPairs(ps, parseTime, distance, threshold);
      if CollectPairs(init, parseTime, distance, threshold).None? {
        var j :| 0 <= j < |init| && init[j].evtype == "ke" && parseTime(RemoveZ(init[j].time)).None?;
        assert ps[j] == init[j];
      } else {
        assert forall j :: 0 <= j < |init| ==> ps[j] == init[j];
      }
    }
  }

  /** What `update` keeps: at most five features, those of the nearest pairs in non-decreasing
    * distance order (ties in feed order), none farther than a pair it dropped. */
  lemma NearestProperties(pairs: seq<QuakePair>)
    ensures var sorted := SortBy(pairs, PairDistance);
            var m := MinInt(5, |pairs|);
            |Nearest(pairs)| == m
            && Nearest(pairs) == Features(sorted[..m])
            && SortedBy(sorted[..m], PairDistance)
            && (forall i, j :: 0 <= i < m <= j < |sorted| ==> sorted[i].distance <= sorted[j].distance)
            && multiset(sorted[..m]) <= multiset(pairs)
  {
    var sorted := SortBy(pairs, PairDistance);
    var m := MinInt(5, |pairs|);
    SortBySorted(pairs, PairDistance);
    SortedSplit(sorted, m);
    assert sorted == sorted[..m] + sorted[m..];
    assert multiset(sorted) == multiset(sorted[..m]) + multiset(sorted[m..]);
  }

  /** Splitting a list sorted by distance: the prefix is sorted and no later pair is nearer. */
  lemma SortedSplit(sorted: seq<QuakePair>, m: int)
    requires 0 <= m <= |sorted| && SortedBy(sorted, PairDistance)
    ensures SortedBy(sorted[..m], PairDistance)
    ensures forall i, j :: 0 <= i < m <= j < |sorted| ==> sorted[i].distance <= sorted[j].distance
  {
    forall i, j | 0 <= i < m <= j < |sorted| ensures sorted[i].distance <= sorted[j].distance {
      assert PairDistance(sorted[i]) <= PairDistance(sorted[j]);
    }
  }

  /** A non-'ke' feature does not change what is collected. */
  lemma OnlyEarthquakes(ps: seq<Properties>, p: Properties, parseTime: string -> Option<LocalDateTime>,
                        distance: Measure, threshold: real)
    requires p.evtype != "ke"
    ensures CollectPairs(ps + [p], parseTime, distance, threshold) == CollectPairs(ps, parseTime, distance, threshold)
  {
    assert (ps + [p])[..|ps|] == ps;
  }

  lemma CollectNonePersists(ps: seq<Properties>, i: int, parseTime: string -> Option<LocalDateTime>,
                            distance: Measure, threshold: real)
    requires 0 <= i <= |ps| && CollectPairs(ps[..i], parseTime, distance, threshold).None?
    ensures CollectPairs(ps, parseTime, distance, threshold).None?
    decreases |ps| - i
  {
    if i < |ps| {
      assert ps[..i + 1][..i] == ps[..i];
      CollectNonePersists(ps, i + 1, parseTime, distance, threshold);
    } else {
      assert ps[..i] == ps;
    }
  }

  class JacksonQuakeParser {
    var top5NearestEarthquakes: seq<EarthquakeFeature>
    var customMagnitudeFilter: real

    /** The threshold stays in [0, 12] and at most five features are kept. */
    ghost predicate Valid()
      reads this
    {
      0.0 <= customMagnitudeFilter <= MaxMagnitudeThreshold && |top5NearestEarthquakes| <= 5
    }

    /** The default constructor: threshold 4.0, no features. */
    constructor()
      ensures Valid()
      ensures customMagnitudeFilter == DefaultMagnitudeThreshold && top5NearestEarthquakes == []
    {
      customMagnitudeFilter := DefaultMagnitudeThreshold;
      top5NearestEarthquakes := [];
    }

    /** The constructor with a custom threshold, clamped by `validateThreshold`. */
    constructor WithThreshold(customThreshold: real)
      ensures Valid()
      ensures customMagnitudeFilter == ClampedThreshold(customThreshold) && top5NearestEarthquakes == []
    {
      top5NearestEarthquakes := [];
      customMagnitudeFilter := 0.0;
      new;
      ValidateThreshold(customThreshold);
    }

    /** `validateThreshold`. */
    method ValidateThreshold(newThreshold: real)
      requires |top5NearestEarthquakes| <= 5
      modifies this
      ensures Valid()
      ensures customMagnitudeFilter == ClampedThreshold(newThreshold)
      ensures top5NearestEarthquakes == old(top5NearestEarthquakes)
    {
      if newThreshold < 0.0 {
        customMagnitudeFilter := DefaultMagnitudeThreshold;
      } else if newThreshold > 12.0 {
        customMagnitudeFilter := 12.0;
      } else {
        customMagnitudeFilter := newThreshold;
      }
    }

    /** `getCurrentThreshold`. */
    function GetCurrentThreshold(): real
      reads this
    {
      customMagnitudeFilter
    }

    /** `top5Earthquakes`: a copy of the list; the parser's own list is a value the caller
      * cannot reach. */
    method Top5Earthquakes() returns (copy: seq<EarthquakeFeature>)
      requires Valid()
      ensures copy == top5NearestEarthquakes && |copy| <= 5
    {
      copy := top5NearestEarthquakes;
    }

    /** `update`: the earthquakes of the feed filtered, sorted by distance as the program
      * measures it (`AsWrittenMeasure`), and the nearest five stored in place of the previous
      * list. */
    method Update(json: Option<seq<Properties>>, parseTime: string -> Option<LocalDateTime>, haversine: Haversine)
      returns (outcome: UpdateOutcome)
      requires Valid()
      modifies this
      ensures Valid() && customMagnitudeFilter == old(customMagnitudeFilter)
      ensures json.None? ==> outcome == Unparsable && top5NearestEarthquakes == old(top5NearestEarthquakes)
      ensures json.Some? ==>
                match CollectPairs(json.value, parseTime, AsWrittenMeasure(haversine), customMagnitudeFilter)
                case None => outcome == BadTime && top5NearestEarthquakes == old(top5NearestEarthquakes)
                case Some(pairs) => outcome == Updated && top5NearestEarthquakes == Nearest(pairs)
    {
      if json.None? {
        return Unparsable;
      }
      var features := json.value;
      var pairs: seq<QuakePair> := [];
      for i := 0 to |features|
        invariant customMagnitudeFilter == old(customMagnitudeFilter)
        invariant top5NearestEarthquakes == old(top5NearestEarthquakes)
        invariant CollectPairs(features[..i], parseTime, AsWrittenMeasure(haversine), customMagnitudeFilter) == Some(pairs)
      {
        assert features[..i + 1][..i] == features[..i];
        var props := features[i];
        if props.evtype != "ke" {
          continue;
        }
        var editedTime := parseTime(RemoveZ(props.time));
        if editedTime.None? {
          CollectNonePersists(features, i + 1, parseTime, AsWrittenMeasure(haversine), customMagnitudeFilter);
          return BadTime;
        }
        var momentMag := ConvertToMw(props.magtype, props.mag);
        if NotEurasia(props.lat, props.lon) {
          continue;
        }
        var distanceKm := QuakeDistanceAsWritten(haversine, props);
        var newFeature := EarthquakeFeature(props.flynnRegion, editedTime.value, [props.lon, props.lat],
                                            props.depth, StoredMagnitude(momentMag));
        if InvalidMagnitude(momentMag, customMagnitudeFilter) {
          continue;
        }
        pairs := pairs + [QuakePair(newFeature, distanceKm)];
      }
      assert features[..|features|] == features;
      var sorted := SortBy(pairs, PairDistance);
      top5NearestEarthquakes := [];
      var hasNow := 1;
      for k := 0 to |sorted|
        invariant customMagnitudeFilter == old(customMagnitudeFilter)
        invariant hasNow == k + 1 || (hasNow == 7 && k >= 5)
        invariant top5NearestEarthquakes == Features(sorted[..MinInt(k, 5)])
      {
        if hasNow > 5 {
          hasNow := hasNow + 1;
          break;
        }
        hasNow := hasNow + 1;
        top5NearestEarthquakes := top5NearestEarthquakes + [sorted[k].feature];
        assert Features(sorted[..k + 1]) == Features(sorted[..k]) + [sorted[k].feature];
      }
      return Updated;
    }
  }

  // ---------------------------------------------------------------- the argument order

  /** A distance that is zero exactly between equal points: |dlat| + |dlon|. */
  function GridDistance(lat1: real, lon1: real, lat2: real, lon2: real): real
  {
    Abs(lat2 - lat1) + Abs(lon2 - lon1)
  }

  /** As written, an earthquake at Krasnodar itself is measured to the point (38.98, 45.04)
    * instead: with a distance that vanishes only between equal points, it is not at 0 km. */
  lemma AsWrittenMeasuresSwappedPoint()
    ensures var atKrasnodar := Properties("ke", "", "mw", 5.0, KrasnodarLon, KrasnodarLat, 10.0, "");
            QuakeDistanceAsWritten(GridDistance, atKrasnodar) != 0.0
            && QuakeDistance(GridDistance, atKrasnodar) == 0.0
  {
  }

  /** With the arguments in order, the distance of an earthquake is the distance from Krasnodar
    * to its own (lat, lon): for any distance that vanishes on equal points, an earthquake at
    * Krasnodar is at 0 km. */
  lemma DistanceMeasuresTheQuake(haversine: Haversine, p: Properties)
    requires forall a, b :: haversine(a, b, a, b) == 0.0
    ensures p.lat == KrasnodarLat && p.lon == KrasnodarLon ==> QuakeDistance(haversine, p) == 0.0
  {
  }
}
