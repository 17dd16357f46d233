/** `EarthquakeLocalizer`: builds the per-station data of each event (a triple of stations,
  * vertical channel only), picks the P-wave arrival at every station (STA/LTA on the first
  * station of the triple, cross-correlation windows for the other two) and runs the TDOA
  * solver on every triple whose arrivals are all usable. */
module EarthquakeLocalizer {
  import opened Wrappers
  import opened RealMath
  import opened SignalMath
  import opened FftUtils
  import opened TriangulationPipeline
  import opened TdoaLocalizer
  import opened CoordinateConverter
  import SeismicSignalExtractor

  /** Mean P-wave speed in the crust, km/s. */
  const WaveSpeed: real := 6.0

  /** STA/LTA parameters of the anchor pick. */
  const StaSec: real := 0.5
  const LtaSec: real := 5.0
  const ThrOn: real := 3.5
  const ThrOff: real := 1.4

  /** Plausible arrival times, seconds from the start of the record. */
  const MinArrivalTimeSec: real := 0.0
  const MaxArrivalTimeSec: real := 600.0

  /** Longest sample array the model accepts: two windows of it still fit the FFT size bound. */
  const MaxSamples: int := 0x2000_0000

  // ---------------------------------------------------------------- station data

  /** `StationData`: the preprocessed signal, the station in local kilometres, the channel,
    * the event's reference point and the arrival time, which starts at 0.0 and is the only
    * field set later. */
  class StationData {
    const pipelineSignal: Signal
    const station: Station
    const channel: string
    const refLatitude: real
    const refLongitude: real
    var arrivalTimeSec: real

    constructor(ps: Signal, st: Station, ch: string, refLat: real, refLon: real)
      ensures pipelineSignal == ps && station == st && channel == ch
      ensures refLatitude == refLat && refLongitude == refLon
      ensures arrivalTimeSec == 0.0
    {
      pipelineSignal := ps;
      channel := ch;
      station := st;
      refLatitude := refLat;
      refLongitude := refLon;
      arrivalTimeSec := 0.0;
    }

    /** `setArrivalTimeSec`. */
    method SetArrivalTimeSec(t: real)
      modifies this
      ensures arrivalTimeSec == t
    {
      arrivalTimeSec := t;
    }
  }

  /** No station object appears twice in the list. */
  predicate Distinct(data: seq<StationData>)
  {
    forall a, b :: 0 <= a < b < |data| ==> data[a] != data[b]
  }

  /** The stations' current arrival times, in list order. */
  function Arrivals(data: seq<StationData>): (r: seq<real>)
    reads set k | 0 <= k < |data| :: data[k]
    ensures |r| == |data|
  {
    if data == [] then [] else Arrivals(data[..|data| - 1]) + [data[|data| - 1].arrivalTimeSec]
  }

  lemma {:induction false} ArrivalsAt(data: seq<StationData>, k: int)
    requires 0 <= k < |data|
    ensures Arrivals(data)[k] == data[k].arrivalTimeSec
    decreases |data|
  {
    if k < |data| - 1 {
      ArrivalsAt(data[..|data| - 1], k);
    }
  }

  /** The stations' signals, in list order. */
  function Signals(data: seq<StationData>): (r: seq<Signal>)
    ensures |r| == |data| && forall k :: 0 <= k < |data| ==> r[k] == data[k].pipelineSignal
  {
    seq(|data|, k requires 0 <= k < |data| => data[k].pipelineSignal)
  }

  /** Setting one station's arrival time changes that entry of `Arrivals` and no other. */
  method SetArrival(data: seq<StationData>, k: int, t: real)
    requires 0 <= k < |data| && Distinct(data)
    modifies data[k]
    ensures Arrivals(data) == old(Arrivals(data))[k := t]
  {
    ghost var before := Arrivals(data);
    forall j | 0 <= j < |data| ensures before[j] == old(data[j].arrivalTimeSec) {
      ArrivalsAt(data, j);
    }
    data[k].SetArrivalTimeSec(t);
    forall j | 0 <= j < |data| ensures Arrivals(data)[j] == before[k := t][j] {
      ArrivalsAt(data, j);
    }
  }

  /** The samples of a signal as the array the pipeline works on. */
  method SamplesArray(s: seq<real>) returns (a: array<real>)
    ensures fresh(a) && a[..] == s
  {
    a := new real[|s|];
    for pos := 0 to |s|
      invariant forall k :: 0 <= k < pos ==> a[k] == s[k]
    {
      a[pos] := s[pos];
    }
  }

  // ---------------------------------------------------------------- picking: specification

  /** The two cross-correlation windows around the anchor pick, in samples. */
  datatype PickWindows = PickWindows(searchStart: int, searchLen: int, anchorStart: int, anchorLen: int)

  /** Search window: from 10 s before the pick, 40 s long; anchor window: from 2 s before the
    * pick, 6 s long; seconds become samples through the truncated sampling rate. */
  function WindowsAround(pick: int, fs: real): PickWindows
  {
    var fsInt := Truncate(fs);
    PickWindows(MaxInt(0, pick - 10 * fsInt), 40 * fsInt, MaxInt(0, pick - 2 * fsInt), 6 * fsInt)
  }

  /** The refined arrival: search-window start, plus the anchor's time inside the window, plus
    * the correlation delay. */
  function RefinedArrival(searchStart: int, fs: real, anchorArrival: real, windowDelay: real): real
    requires fs != 0.0
  {
    var windowStartSec := searchStart as real / fs;
    var anchorTimeInWindow := anchorArrival - windowStartSec;
    windowStartSec + anchorTimeInWindow + windowDelay
  }

  /** A refined arrival outside [0, 600] s is stored as the rejection value 0.0. */
  function StoredArrival(refined: real): real
  {
    if refined < MinArrivalTimeSec || refined > MaxArrivalTimeSec then 0.0 else refined
  }

  /** The correlation delay of `current` against the anchor, over the two windows. */
  function StationDelay(trig: Trig, anchor: Signal, current: Signal, pick: int): Result<real, CorrelationError>
    requires anchor.fs != 0.0
  {
    var w := WindowsAround(pick, anchor.fs);
    var a := Window(current.samples, w.searchStart, w.searchLen);
    var b := Window(anchor.samples, w.anchorStart, w.anchorLen);
    if |a| + |b| >= 1 then Ok(DelaySpec(trig, a, b, anchor.fs)) else Err(NegativeArraySize)
  }

  /** The arrival times and the delay of the last accepted station. */
  datatype PickState = PickState(arrivals: seq<real>, last: Option<real>)

  /** Station `i + j` of the event starting at `i`, given the anchor pick and the station's
    * correlation delay. */
  function PickStation(sigs: seq<Signal>, st: PickState, i: int, pick: int, j: int,
                       delay: Result<real, CorrelationError>)
    : (r: Result<PickState, CorrelationError>)
    requires 0 <= i && i + 3 <= |sigs| == |st.arrivals| && 1 <= j < 3 && sigs[i].fs != 0.0
    ensures r.Ok? ==> |r.value.arrivals| == |st.arrivals|
  {
    var fs := sigs[i].fs;
    var windowDelay :- delay;
    var refined := RefinedArrival(WindowsAround(pick, fs).searchStart, fs, pick as real / fs, windowDelay);
    if refined < MinArrivalTimeSec || refined > MaxArrivalTimeSec then
      Ok(PickState(st.arrivals[i + j := 0.0], st.last))
    else
      Ok(PickState(st.arrivals[i + j := refined], Some(windowDelay)))
  }

  /** Stations `i + j`, ..., `i + 2` of the event, in order, each with its delay from
    * `delays`; an error stops the scan. */
  function PickStations(sigs: seq<Signal>, st: PickState, i: int, pick: int,
                        delays: seq<Result<real, CorrelationError>>, j: int)
    : (r: Result<PickState, CorrelationError>)
    requires 0 <= i && i + 3 <= |sigs| == |st.arrivals| == |delays| && 1 <= j <= 3 && sigs[i].fs != 0.0
    ensures r.Ok? ==> |r.value.arrivals| == |st.arrivals|
    decreases 3 - j
  {
    if j == 3 then Ok(st)
    else
      var next :- PickStation(sigs, st, i, pick, j, delays[i + j]);
      PickStations(sigs, next, i, pick, delays, j + 1)
  }

  /** The event starting at `i`, given its anchor's STA/LTA pick: nothing changes when there
    * is no onset (-1); otherwise the anchor gets pick / fs and the two others their validated
    * arrivals. */
  function PickEvent(sigs: seq<Signal>, st: PickState, i: int, pick: int,
                     delays: seq<Result<real, CorrelationError>>)
    : (r: Result<PickState, CorrelationError>)
    requires 0 <= i && i + 3 <= |sigs| == |st.arrivals| == |delays| && sigs[i].fs != 0.0
    ensures r.Ok? ==> |r.value.arrivals| == |st.arrivals|
  {
    if pick == -1 then Ok(st)
    else
      var st1 := PickState(st.arrivals[i := pick as real / sigs[i].fs], st.last);
      PickStations(sigs, st1, i, pick, delays, 1)
  }

  /** The STA/LTA pick of every signal; `pickPWaveArrivals` uses those of the anchors. */
  function AnchorPicks(sigs: seq<Signal>): (picks: seq<int>)
    ensures |picks| == |sigs|
  {
    seq(|sigs|, k requires 0 <= k < |sigs| => StaLtaSpec(sigs[k].samples, sigs[k].fs, StaSec, LtaSec, ThrOn))
  }

  /** The anchors of all complete triples have a non-zero sampling rate. */
  predicate AnchorRates(sigs: seq<Signal>)
  {
    forall k :: 0 <= k < |sigs| && k % 3 == 0 ==> sigs[k].fs != 0.0
  }

  /** The first station of the triple that station `k` belongs to. */
  function AnchorOf(k: int): (a: int)
    requires 0 <= k
    ensures 0 <= a <= k < a + 3 && a % 3 == 0
  {
    k - k % 3
  }

  /** The correlation delay of every station against the anchor of its triple (an anchor's own
    * entry is never used). */
  function StationDelays(trig: Trig, sigs: seq<Signal>, picks: seq<int>): (d: seq<Result<real, CorrelationError>>)
    requires |picks| == |sigs| && AnchorRates(sigs)
    ensures |d| == |sigs|
  {
    seq(|sigs|, k requires 0 <= k < |sigs| =>
      StationDelay(trig, sigs[AnchorOf(k)], sigs[k], picks[AnchorOf(k)]))
  }

  /** The events from index `i` on, one triple at a time; a trailing group of fewer than three
    * stations is skipped. */
  function PickFrom(sigs: seq<Signal>, picks: seq<int>, delays: seq<Result<real, CorrelationError>>,
                    st: PickState, i: int)
    : Result<PickState, CorrelationError>
    requires 0 <= i && i % 3 == 0 && |sigs| == |picks| == |delays| == |st.arrivals| && AnchorRates(sigs)
    decreases |sigs| - i
  {
    if i + 3 > |sigs| then Ok(st)
    else
      var next :- PickEvent(sigs, st, i, picks[i], delays);
      PickFrom(sigs, picks, delays, next, i + 3)
  }

  /** What `pickPWaveArrivals` does to the arrival times, and the delay it returns. */
  function PickSpec(trig: Trig, sigs: seq<Signal>, arrivals: seq<real>): Result<PickState, CorrelationError>
    requires |sigs| == |arrivals| && AnchorRates(sigs)
  {
    var picks := AnchorPicks(sigs);
    PickFrom(sigs, picks, StationDelays(trig, sigs, picks), PickState(arrivals, None), 0)
  }

  // ---------------------------------------------------------------- picking: properties

  /** The cancellation the comments of `pickPWaveArrivals` rely on: the search-window start
    * drops out, leaving the anchor arrival plus the delay. */
  lemma RefinedArrivalCancels(searchStart: int, fs: real, anchorArrival: real, windowDelay: real)
    requires fs != 0.0
    ensures RefinedArrival(searchStart, fs, anchorArrival, windowDelay) == anchorArrival + windowDelay
  {
  }

  /** A stored arrival is always in [0, 600], and it is the refined one exactly when that is. */
  lemma StoredArrivalValid(refined: real)
    ensures MinArrivalTimeSec <= StoredArrival(refined) <= MaxArrivalTimeSec
    ensures StoredArrival(refined) == refined <==> MinArrivalTimeSec <= refined <= MaxArrivalTimeSec
  {
  }

  /** For a non-negative rate the anchor window lies inside the search window. */
  lemma WindowsNested(pick: int, fs: real)
    requires fs >= 0.0
    ensures var w := WindowsAround(pick, fs);
            w.searchStart <= w.anchorStart && w.anchorStart + w.anchorLen <= w.searchStart + w.searchLen
  {
  }

  /** One station step changes only that station's arrival, to a value in [0, 600]; the
    * returned delay changes only when the arrival is accepted. */
  lemma PickStationEffect(sigs: seq<Signal>, st: PickState, i: int, pick: int, j: int,
                          delay: Result<real, CorrelationError>)
    requires 0 <= i && i + 3 <= |sigs| == |st.arrivals| && 1 <= j < 3 && sigs[i].fs != 0.0
    ensures var r := PickStation(sigs, st, i, pick, j, delay);
            (r.Ok? <==> delay.Ok?)
            && (r.Ok? ==> |r.value.arrivals| == |st.arrivals|
                          && (forall k :: 0 <= k < |st.arrivals| && k != i + j ==> r.value.arrivals[k] == st.arrivals[k])
                          && MinArrivalTimeSec <= r.value.arrivals[i + j] <= MaxArrivalTimeSec
                          && (r.value.last == st.last || r.value.last == Some(delay.value)))
  {
  }

  /** The remaining station steps of an event touch only stations `i + j`, ..., `i + 2`, and
    * leave each of them in [0, 600]. */
  lemma {:induction false} PickStationsEffect(sigs: seq<Signal>, st: PickState, i: int, pick: int,
                                              delays: seq<Result<real, CorrelationError>>, j: int)
    requires 0 <= i && i + 3 <= |sigs| == |st.arrivals| == |delays| && 1 <= j <= 3 && sigs[i].fs != 0.0
    ensures var r := PickStations(sigs, st, i, pick, delays, j);
            r.Ok? ==> |r.value.arrivals| == |st.arrivals|
                      && (forall k :: 0 <= k < |st.arrivals| && !(i + j <= k < i + 3) ==> r.value.arrivals[k] == st.arrivals[k])
                      && (forall k :: i + j <= k < i + 3 ==> MinArrivalTimeSec <= r.value.arrivals[k] <= MaxArrivalTimeSec)
    decreases 3 - j
  {
    if j < 3 {
      var next := PickStation(sigs, st, i, pick, j, delays[i + j]);
      if next.Ok? {
        PickStationEffect(sigs, st, i, pick, j, delays[i + j]);
        PickStationsEffect(sigs, next.value, i, pick, delays, j + 1);
      }
    }
  }

  /** An event with an onset stores pick / fs for its anchor and arrivals in [0, 600] for the
    * two other stations; an event touches no station outside its triple. */
  lemma PickEventEffect(sigs: seq<Signal>, st: PickState, i: int, pick: int,
                        delays: seq<Result<real, CorrelationError>>)
    requires 0 <= i && i + 3 <= |sigs| == |st.arrivals| == |delays| && sigs[i].fs != 0.0
    ensures var r := PickEvent(sigs, st, i, pick, delays);
            r.Ok? ==> |r.value.arrivals| == |st.arrivals|
                      && (forall k :: 0 <= k < |st.arrivals| && !(i <= k < i + 3) ==> r.value.arrivals[k] == st.arrivals[k])
                      && (pick == -1 ==> r.value == st)
                      && (pick != -1 ==> r.value.arrivals[i] == pick as real / sigs[i].fs
                                         && MinArrivalTimeSec <= r.value.arrivals[i + 1] <= MaxArrivalTimeSec
                                         && MinArrivalTimeSec <= r.value.arrivals[i + 2] <= MaxArrivalTimeSec)
  {
    if pick != -1 {
      var st1 := PickState(st.arrivals[i := pick as real / sigs[i].fs], st.last);
      PickStationsEffect(sigs, st1, i, pick, delays, 1);
    }
  }

  /** An event that is never processed (a trailing group of fewer than three stations) or
    * whose anchor has no onset keeps all its stations' arrival times. */
  lemma {:induction false} PickFromKeeps(sigs: seq<Signal>, picks: seq<int>,
                                         delays: seq<Result<real, CorrelationError>>, st: PickState, i: int, e: int)
    requires 0 <= i && i % 3 == 0 && |sigs| == |picks| == |delays| == |st.arrivals| && AnchorRates(sigs)
    requires 0 <= e < |sigs| && e % 3 == 0 && (e + 3 > |sigs| || picks[e] == -1)
    ensures var r := PickFrom(sigs, picks, delays, st, i);
            r.Ok? ==> |r.value.arrivals| == |sigs|
                      && forall k :: e <= k < e + 3 && k < |sigs| ==> r.value.arrivals[k] == st.arrivals[k]
    decreases |sigs| - i
  {
    if i + 3 <= |sigs| {
      var next := PickEvent(sigs, st, i, picks[i], delays);
      if next.Ok? {
        PickEventEffect(sigs, st, i, picks[i], delays);
        if i != e {
          SeparateTriples(i, e);
        }
        NextTriple(i);
        PickFromKeeps(sigs, picks, delays, next.value, i + 3, e);
      }
    }
  }

  /** `pickPWaveArrivals` leaves the arrival times of a trailing group of fewer than three
    * stations, and of every triple whose anchor has no STA/LTA onset, as they were. */
  lemma PickSpecKeeps(trig: Trig, sigs: seq<Signal>, arrivals: seq<real>, e: int)
    requires |sigs| == |arrivals| && AnchorRates(sigs)
    requires 0 <= e < |sigs| && e % 3 == 0
    requires e + 3 > |sigs| || StaLtaSpec(sigs[e].samples, sigs[e].fs, StaSec, LtaSec, ThrOn) == -1
    ensures var r := PickSpec(trig, sigs, arrivals);
            r.Ok? ==> |r.value.arrivals| == |sigs|
                      && forall k :: e <= k < e + 3 && k < |sigs| ==> r.value.arrivals[k] == arrivals[k]
  {
    var picks := AnchorPicks(sigs);
    PickFromKeeps(sigs, picks, StationDelays(trig, sigs, picks), PickState(arrivals, None), 0, e);
  }

  lemma NextTriple(i: int)
    requires i % 3 == 0
    ensures (i + 3) % 3 == 0
  {
  }

  /** Two different triple starts are at least three apart. */
  lemma SeparateTriples(i: int, e: int)
    requires i % 3 == 0 && e % 3 == 0 && i != e
    ensures e >= i + 3 || e + 3 <= i
  {
    var p, q := i / 3, e / 3;
    assert i == 3 * p && e == 3 * q;
  }

  // ---------------------------------------------------------------- picking: the method

  /** The arrays of a station must fit the correlation's FFT size bound. */
  predicate SampleBound(data: seq<StationData>)
  {
    forall k :: 0 <= k < |data| ==> |data[k].pipelineSignal.samples| <= MaxSamples
  }

  /** The correlation of one station's search window against the anchor window. */
  method CorrelateWithAnchor(trig: Trig, anchor: Signal, current: Signal, pick: int,
                             searchStart: int, searchEnd: int, windowedAnchor: array<real>)
    returns (res: Result<real, CorrelationError>)
    requires anchor.fs != 0.0 && |anchor.samples| <= MaxSamples && |current.samples| <= MaxSamples
    requires var w := WindowsAround(pick, anchor.fs);
             searchStart == w.searchStart && searchEnd - searchStart == w.searchLen
             && windowedAnchor[..] == Window(anchor.samples, w.anchorStart, w.anchorLen)
    ensures res == StationDelay(trig, anchor, current, pick)
  {
    var w := WindowsAround(pick, anchor.fs);
    var pCurrent := SamplesArray(current.samples);
    var windowedCurrent := Slice(pCurrent, searchStart, searchEnd - searchStart);
    WindowReadsInside(current.samples, searchStart, searchEnd - searchStart);
    WindowReadsInside(anchor.samples, w.anchorStart, w.anchorLen);
    var a := Window(current.samples, w.searchStart, w.searchLen);
    var b := Window(anchor.samples, w.anchorStart, w.anchorLen);
    assert windowedCurrent[..] == a && windowedAnchor[..] == b;
    res := EstimateDelaySeconds(trig, windowedCurrent, windowedAnchor, anchor.fs);
    if res.Ok? {
      assert res.value == DelaySpec(trig, a, b, anchor.fs);
    } else {
      assert res.error == NegativeArraySize;
    }
  }

  /** The validation and storing step for one non-anchor station, given its correlation
    * delay. */
  method StoreArrival(data: seq<StationData>, i: int, j: int, pick: int, searchStart: int,
                      anchorArrival: real, tuple: Result<real, CorrelationError>, last: Option<real>)
    returns (r: Result<Option<real>, CorrelationError>)
    requires Distinct(data)
    requires 0 <= i && i + 3 <= |data| && 1 <= j < 3 && data[i].pipelineSignal.fs != 0.0
    requires var fs := data[i].pipelineSignal.fs;
             searchStart == WindowsAround(pick, fs).searchStart && anchorArrival == pick as real / fs
    modifies data[i + j]
    ensures var spec := PickStation(Signals(data), PickState(old(Arrivals(data)), last), i, pick, j, tuple);
            (r.Ok? <==> spec.Ok?)
            && (r.Ok? ==> Arrivals(data) == spec.value.arrivals && r.value == spec.value.last)
  {
    ghost var sigs := Signals(data);
    ghost var before := PickState(Arrivals(data), last);
    var fs := data[i].pipelineSignal.fs;
    if tuple.Err? {
      return Err(tuple.error);
    }
    var windowDelay := tuple.value;
    var anchorTimeInWindow := anchorArrival - searchStart as real / fs;
    var refinedArrivalTimeSec := searchStart as real / fs + anchorTimeInWindow + windowDelay;
    assert refinedArrivalTimeSec == RefinedArrival(searchStart, fs, pick as real / fs, windowDelay);
    if refinedArrivalTimeSec < MinArrivalTimeSec || refinedArrivalTimeSec > MaxArrivalTimeSec {
      SetArrival(data, i + j, 0.0);
      assert PickStation(sigs, before, i, pick, j, tuple) == Ok(PickState(before.arrivals[i + j := 0.0], last));
      return Ok(last);
    }
    SetArrival(data, i + j, refinedArrivalTimeSec);
    assert PickStation(sigs, before, i, pick, j, tuple)
           == Ok(PickState(before.arrivals[i + j := refinedArrivalTimeSec], Some(windowDelay)));
    return Ok(Some(windowDelay));
  }

  /** One complete triple of `pickPWaveArrivals`. */
  method PickEventArrivals(trig: Trig, data: seq<StationData>, i: int, last: Option<real>,
                           ghost delays: seq<Result<real, CorrelationError>>)
    returns (r: Result<Option<real>, CorrelationError>)
    requires Distinct(data) && SampleBound(data) && AnchorRates(Signals(data))
    requires 0 <= i && i % 3 == 0 && i + 3 <= |data| && data[i].pipelineSignal.fs != 0.0
    requires |delays| == |data| && DelaysFit(trig, Signals(data), AnchorPicks(Signals(data)), delays)
    modifies data[i], data[i + 1], data[i + 2]
    ensures var spec := PickEvent(Signals(data), PickState(old(Arrivals(data)), last), i,
                                  AnchorPicks(Signals(data))[i], delays);
            (r.Ok? <==> spec.Ok?)
            && (r.Ok? ==> Arrivals(data) == spec.value.arrivals && r.value == spec.value.last)
  {
    ghost var sigs := Signals(data);
    var anchor := data[i];
    var fs := anchor.pipelineSignal.fs;
    var pAnchor := SamplesArray(anchor.pipelineSignal.samples);
    var anchorPickSample := StaLtaPick(pAnchor, fs, StaSec, LtaSec, ThrOn, ThrOff);
    if anchorPickSample == -1 {
      return Ok(last);
    }
    var anchorArrivalTimeSec := anchorPickSample as real / fs;
    SetArrival(data, i, anchorArrivalTimeSec);

    var searchWindowStartSample, searchWindowEndSample, windowedAnchor := AnchorWindows(pAnchor, anchorPickSample, fs);
    assert anchorPickSample == AnchorPicks(sigs)[i];
    EventDelaysOfTriple(trig, sigs, AnchorPicks(sigs), delays, i);
    r := PickOtherStations(trig, data, i, anchorPickSample, searchWindowStartSample, searchWindowEndSample,
                           anchorArrivalTimeSec, windowedAnchor, last, delays);
  }

  /** The sample windows around the anchor pick: the search window's bounds and the windowed
    * anchor signal. */
  method AnchorWindows(pAnchor: array<real>, pick: int, fs: real)
    returns (searchStart: int, searchEnd: int, windowedAnchor: array<real>)
    ensures var w := WindowsAround(pick, fs);
            searchStart == w.searchStart && searchEnd - searchStart == w.searchLen
            && windowedAnchor[..] == Window(pAnchor[..], w.anchorStart, w.anchorLen)
  {
    var fsInt := Truncate(fs);
    searchStart := MaxInt(0, pick - 10 * fsInt);
    searchEnd := searchStart + 40 * fsInt;
    var startA := MaxInt(0, pick - 2 * fsInt);
    var lenA := 6 * fsInt;
    windowedAnchor := Slice(pAnchor, startA, lenA);
  }

  /** Entry `k` of a delay sequence. The facts below about delay sequences are keyed on this
    * function, so that they are used only where a step asks for an entry explicitly. */
  function DelayAt(delays: seq<Result<real, CorrelationError>>, k: int): Result<real, CorrelationError>
    requires 0 <= k < |delays|
  {
    delays[k]
  }

  /** `delays` holds the correlation of every station against the anchor of its triple. */
  ghost predicate DelaysFit(trig: Trig, sigs: seq<Signal>, picks: seq<int>,
                            delays: seq<Result<real, CorrelationError>>)
    requires |picks| == |sigs| == |delays| && AnchorRates(sigs)
  {
    forall k {:trigger DelayAt(delays, k)} :: 0 <= k < |sigs| ==>
      DelayAt(delays, k) == StationDelay(trig, sigs[AnchorOf(k)], sigs[k], picks[AnchorOf(k)])
  }

  /** `delays` holds, for stations `i + 1` and `i + 2`, the correlation against anchor `i`
    * at `pick`. */
  ghost predicate EventDelaysFit(trig: Trig, sigs: seq<Signal>, i: int, pick: int,
                                 delays: seq<Result<real, CorrelationError>>)
    requires 0 <= i && i + 3 <= |sigs| == |delays| && sigs[i].fs != 0.0
  {
    forall k {:trigger DelayAt(delays, k)} :: i < k < i + 3 ==>
      DelayAt(delays, k) == StationDelay(trig, sigs[i], sigs[k], pick)
  }

  /** The delays of a triple's two other stations are taken against its anchor. */
  lemma EventDelaysOfTriple(trig: Trig, sigs: seq<Signal>, picks: seq<int>,
                            delays: seq<Result<real, CorrelationError>>, i: int)
    requires |picks| == |sigs| == |delays| && AnchorRates(sigs) && DelaysFit(trig, sigs, picks, delays)
    requires 0 <= i && i % 3 == 0 && i + 3 <= |sigs|
    ensures sigs[i].fs != 0.0 && EventDelaysFit(trig, sigs, i, picks[i], delays)
  {
    forall k | i < k < i + 3
      ensures DelayAt(delays, k) == StationDelay(trig, sigs[i], sigs[k], picks[i])
    {
      AnchorOfMember(i, k);
    }
  }

  lemma AnchorOfMember(i: int, k: int)
    requires i % 3 == 0 && 0 <= i <= k < i + 3
    ensures AnchorOf(k) == i
  {
    var p := i / 3;
    assert k == 3 * p + (k - i);
  }

  lemma StationDelaysFit(trig: Trig, sigs: seq<Signal>, picks: seq<int>)
    requires |picks| == |sigs| && AnchorRates(sigs)
    ensures DelaysFit(trig, sigs, picks, StationDelays(trig, sigs, picks))
  {
  }

  /** One pass of the inner loop: correlate station `i + j` against the anchor, then validate
    * and store its arrival. */
  method CorrelateAndStore(trig: Trig, data: seq<StationData>, i: int, j: int, pick: int,
                           searchStart: int, searchEnd: int, anchorArrival: real,
                           windowedAnchor: array<real>, last: Option<real>,
                           ghost delays: seq<Result<real, CorrelationError>>)
    returns (r: Result<Option<real>, CorrelationError>)
    requires Distinct(data) && SampleBound(data)
    requires 0 <= i && i + 3 <= |data| == |delays| && 1 <= j < 3 && data[i].pipelineSignal.fs != 0.0
    requires EventDelaysFit(trig, Signals(data), i, pick, delays)
    requires var fs := data[i].pipelineSignal.fs;
             var w := WindowsAround(pick, fs);
             searchStart == w.searchStart && searchEnd - searchStart == w.searchLen
             && anchorArrival == pick as real / fs
             && windowedAnchor[..] == Window(data[i].pipelineSignal.samples, w.anchorStart, w.anchorLen)
    modifies data[i + j]
    ensures var spec := PickStation(Signals(data), PickState(old(Arrivals(data)), last), i, pick, j, delays[i + j]);
            (r.Ok? <==> spec.Ok?)
            && (r.Ok? ==> Arrivals(data) == spec.value.arrivals && r.value == spec.value.last)
  {
    var tuple := CorrelateWithAnchor(trig, data[i].pipelineSignal, data[i + j].pipelineSignal, pick,
                                     searchStart, searchEnd, windowedAnchor);
    assert Signals(data)[i + j] == data[i + j].pipelineSignal;
    assert tuple == DelayAt(delays, i + j);
    r := StoreArrival(data, i, j, pick, searchStart, anchorArrival, tuple, last);
  }

  /** The inner loop of `pickPWaveArrivals`: stations 1 and 2 of the triple, in order. */
  method PickOtherStations(trig: Trig, data: seq<StationData>, i: int, pick: int,
                           searchStart: int, searchEnd: int, anchorArrival: real,
                           windowedAnchor: array<real>, last: Option<real>,
                           ghost delays: seq<Result<real, CorrelationError>>)
    returns (r: Result<Option<real>, CorrelationError>)
    requires Distinct(data) && SampleBound(data)
    requires 0 <= i && i + 3 <= |data| == |delays| && data[i].pipelineSignal.fs != 0.0
    requires EventDelaysFit(trig, Signals(data), i, pick, delays)
    requires var fs := data[i].pipelineSignal.fs;
             var w := WindowsAround(pick, fs);
             searchStart == w.searchStart && searchEnd - searchStart == w.searchLen
             && anchorArrival == pick as real / fs
             && windowedAnchor[..] == Window(data[i].pipelineSignal.samples, w.anchorStart, w.anchorLen)
    modifies data[i + 1], data[i + 2]
    ensures var spec := PickStations(Signals(data), PickState(old(Arrivals(data)), last), i, pick, delays, 1);
            (r.Ok? <==> spec.Ok?)
            && (r.Ok? ==> Arrivals(data) == spec.value.arrivals && r.value == spec.value.last)
  {
    ghost var sigs := Signals(data);
    ghost var st1 := PickState(Arrivals(data), last);
    var lastAccepted := last;
    for j := 1 to 3
      invariant PickStations(sigs, st1, i, pick, delays, 1)
                == PickStations(sigs, PickState(Arrivals(data), lastAccepted), i, pick, delays, j)
    {
      var step := CorrelateAndStore(trig, data, i, j, pick, searchStart, searchEnd, anchorArrival,
                                    windowedAnchor, lastAccepted, delays);
      if step.Err? {
        return Err(step.error);
      }
      lastAccepted := step.value;
    }
    return Ok(lastAccepted);
  }

  /** `pickPWaveArrivals`: the triples in order; the delay of the last accepted station, or
    * `None` when no station was accepted. A correlation error propagates. */
  method PickPWaveArrivals(trig: Trig, data: seq<StationData>)
    returns (res: Result<Option<real>, CorrelationError>)
    requires Distinct(data) && SampleBound(data) && AnchorRates(Signals(data))
    modifies set k | 0 <= k < |data| :: data[k]
    ensures var spec := PickSpec(trig, Signals(data), old(Arrivals(data)));
            (res.Ok? <==> spec.Ok?)
            && (res.Ok? ==> Arrivals(data) == spec.value.arrivals && res.value == spec.value.last)
  {
    ghost var sigs := Signals(data);
    ghost var picks := AnchorPicks(sigs);
    ghost var delays := StationDelays(trig, sigs, picks);
    StationDelaysFit(trig, sigs, picks);
    res := PickTriples(trig, data, picks, delays);
  }

  /** The loop of `pickPWaveArrivals` over the triples, given the anchor picks and the delays
    * it will compute. */
  method PickTriples(trig: Trig, data: seq<StationData>, ghost picks: seq<int>,
                     ghost delays: seq<Result<real, CorrelationError>>)
    returns (res: Result<Option<real>, CorrelationError>)
    requires Distinct(data) && SampleBound(data) && AnchorRates(Signals(data))
    requires picks == AnchorPicks(Signals(data))
    requires |delays| == |data| && DelaysFit(trig, Signals(data), picks, delays)
    modifies set k | 0 <= k < |data| :: data[k]
    ensures var spec := PickFrom(Signals(data), picks, delays, PickState(old(Arrivals(data)), None), 0);
            (res.Ok? <==> spec.Ok?)
            && (res.Ok? ==> Arrivals(data) == spec.value.arrivals && res.value == spec.value.last)
  {
    ghost var sigs := Signals(data);
    var lastSuccessful: Option<real> := None;
    var i := 0;
    while i < |data|
      invariant 0 <= i && i % 3 == 0
      invariant PickFrom(sigs, picks, delays, PickState(old(Arrivals(data)), None), 0)
                == PickFrom(sigs, picks, delays, PickState(Arrivals(data), lastSuccessful), i)
      decreases |data| - i
    {
      NextTriple(i);
      if i + 3 > |data| {
        i := i + 3;
        continue;
      }
      assert sigs[i].fs != 0.0;
      var r := PickEventArrivals(trig, data, i, lastSuccessful, delays);
      if r.Err? {
        return Err(r.error);
      }
      lastSuccessful := r.value;
      i := i + 3;
    }
    return Ok(lastSuccessful);
  }

  // ---------------------------------------------------------------- localizeAllEvents

  /** What `localizeAllEvents` reports for one event. */
  datatype EventReport =
    | Skipped                                      // fewer than three stations, or an arrival of exactly 0.0
    | Failed(error: LocalizeError)                 // the solver threw; only this event is lost
    | Unresolved                                   // the solver's estimate is NaN
    | Located(local: Point, global: Option<LatLon>) // `None`: the reference latitude is a pole

  /** The solver's view of a station: its local position and its arrival time. */
  function SolverStation(d: StationData): Station
    reads d
  {
    Station(d.station.x, d.station.y, d.arrivalTimeSec)
  }

  /** The event starting at `i` has three stations and none has the rejected arrival 0.0. */
  predicate Usable(data: seq<StationData>, i: int)
    reads set k | 0 <= k < |data| :: data[k]
    requires 0 <= i
  {
    i + 3 <= |data| && forall k :: i <= k < i + 3 ==> data[k].arrivalTimeSec != 0.0
  }

  function EventStations(data: seq<StationData>, i: int): seq<Station>
    reads set k | 0 <= k < |data| :: data[k]
    requires 0 <= i && i + 3 <= |data|
  {
    [SolverStation(data[i]), SolverStation(data[i + 1]), SolverStation(data[i + 2])]
  }

  /** The reference point stored with a station. */
  function RefPoint(d: StationData): LatLon
  {
    LatLon(d.refLatitude, d.refLongitude)
  }

  /** The report for a solver outcome; a located event is converted back to latitude and
    * longitude around the event's reference point. */
  function Reported(trig: Trig, ref: LatLon, outcome: Result<Estimate, LocalizeError>): EventReport
  {
    match outcome
    case Err(e) => Failed(e)
    case Ok(NotANumber) => Unresolved
    case Ok(At(p)) =>
      var global := if trig.cos(ToRadians(ref.lat)) != 0.0
                    then Some(ToGlobalLatLon(trig, LocalXY(p.x, p.y), ref)) else None;
      Located(p, global)
  }

  /** The event starting at index `i`. */
  function EventReportAt(trig: Trig, data: seq<StationData>, i: int): EventReport
    reads set k | 0 <= k < |data| :: data[k]
    requires 0 <= i
  {
    if !Usable(data, i) then Skipped
    else Reported(trig, RefPoint(data[i]), LocalizeSpec(trig, EventStations(data, i), WaveSpeed))
  }

  /** One report per group of three, a trailing short group included. */
  function EventsSpec(trig: Trig, data: seq<StationData>): (r: seq<EventReport>)
    reads set k | 0 <= k < |data| :: data[k]
  {
    seq((|data| + 2) / 3, e requires 0 <= e reads set k | 0 <= k < |data| :: data[k] =>
      EventReportAt(trig, data, 3 * e))
  }

  /** One event of `localizeAllEvents`. */
  method LocalizeEvent(trig: Trig, data: seq<StationData>, i: int) returns (report: EventReport)
    requires 0 <= i < |data|
    ensures report == EventReportAt(trig, data, i)
  {
    var current := data[i..MinInt(i + 3, |data|)];
    if |current| < 3 || exists k :: 0 <= k < |current| && current[k].arrivalTimeSec == 0.0 {
      if |current| == 3 {
        assert !Usable(data, i) by {
          var k :| 0 <= k < |current| && current[k].arrivalTimeSec == 0.0;
          assert data[i + k] == current[k];
        }
      }
      return Skipped;
    }
    assert forall k :: i <= k < i + 3 ==> data[k] == current[k - i];
    var stations := [SolverStation(current[0]), SolverStation(current[1]), SolverStation(current[2])];
    var outcome := Localize(trig, stations, WaveSpeed);
    report := Reported(trig, RefPoint(current[0]), outcome);
  }

  /** `localizeAllEvents`: the groups of three in order; a solver exception cancels only its
    * own event. */
  method LocalizeAllEvents(trig: Trig, data: seq<StationData>) returns (reports: seq<EventReport>)
    ensures reports == EventsSpec(trig, data)
  {
    reports := [];
    var i := 0;
    while i < |data|
      invariant i == 3 * |reports| && i < |data| + 3
      invariant forall e :: 0 <= e < |reports| ==> reports[e] == EventReportAt(trig, data, 3 * e)
    {
      var report := LocalizeEvent(trig, data, i);
      AppendReport(trig, data, reports, report);
      reports := reports + [report];
      i := i + 3;
    }
    ReportsAreSpec(trig, data, reports);
  }

  /** The step of `LocalizeAllEvents`: the report of the next event extends the reports. */
  lemma AppendReport(trig: Trig, data: seq<StationData>, reports: seq<EventReport>, report: EventReport)
    requires forall e :: 0 <= e < |reports| ==> reports[e] == EventReportAt(trig, data, 3 * e)
    requires report == EventReportAt(trig, data, 3 * |reports|)
    ensures forall e :: 0 <= e < |reports| + 1 ==> (reports + [report])[e] == EventReportAt(trig, data, 3 * e)
  {
  }

  /** Reports for every group of three are the reports `EventsSpec` describes. */
  lemma ReportsAreSpec(trig: Trig, data: seq<StationData>, reports: seq<EventReport>)
    requires 3 * |reports| >= |data| && 3 * |reports| < |data| + 3
    requires forall e :: 0 <= e < |reports| ==> reports[e] == EventReportAt(trig, data, 3 * e)
    ensures reports == EventsSpec(trig, data)
  {
    assert |reports| == (|data| + 2) / 3;
  }

  /** An event is skipped exactly when it has fewer than three stations or one of them holds
    * the rejected arrival 0.0. */
  lemma SkippedIff(trig: Trig, data: seq<StationData>, i: int)
    requires 0 <= i
    ensures EventReportAt(trig, data, i) == Skipped <==>
              (i + 3 > |data| || exists k :: i <= k < i + 3 && data[k].arrivalTimeSec == 0.0)
  {
  }

  /** The solver always gets exactly three stations, so its "fewer than 3 stations" error
    * never reaches a report. */
  lemma EventNeverTooFew(trig: Trig, data: seq<StationData>, i: int)
    requires 0 <= i
    ensures EventReportAt(trig, data, i) != Failed(TooFewStations)
  {
    if Usable(data, i) {
      LocalizeTooFewStations(trig, EventStations(data, i), WaveSpeed);
    }
  }

  /** A located event's latitude and longitude project back onto the solver's point. */
  lemma LocatedProjectsBack(trig: Trig, data: seq<StationData>, i: int)
    requires 0 <= i
    ensures var r := EventReportAt(trig, data, i);
            r.Located? ==>
              Usable(data, i)
              && LocalizeSpec(trig, EventStations(data, i), WaveSpeed) == Ok(At(r.local))
              && (r.global.Some? <==> trig.cos(ToRadians(data[i].refLatitude)) != 0.0)
              && (r.global.Some? ==> ToLocalXY(trig, r.global.value, RefPoint(data[i])) == LocalXY(r.local.x, r.local.y))
  {
    var r := EventReportAt(trig, data, i);
    if r.Located? && r.global.Some? {
      LocalOfGlobal(trig, LocalXY(r.local.x, r.local.y), RefPoint(data[i]));
    }
  }

  // ---------------------------------------------------------------- preprocess

  /** `preprocess`: the amplitudes demeaned, then Hamming-windowed; the rate is kept and the
    * start time becomes its second of minute. */
  function PreprocessSpec(trig: Trig, ss: SeismicSignalExtractor.SampledSignal): Signal
    requires |ss.amplitudes| != 1
  {
    Signal(HammingWindowed(trig, Demeaned(ss.amplitudes)), ss.samplingRate, ss.startTime.second as real)
  }

  method Preprocess(trig: Trig, ss: SeismicSignalExtractor.SampledSignal) returns (sig: Signal)
    requires |ss.amplitudes| != 1
    ensures sig == PreprocessSpec(trig, ss)
  {
    var samples := SeismicSignalExtractor.AmplitudesAsArray(ss);
    var processed := Demean(samples);
    processed := ApplyHamming(trig, processed);
    return Signal(processed[..], ss.samplingRate, ss.startTime.second as real);
  }

  /** The preprocessed samples have the input's length, and before windowing they sum to
    * zero. */
  lemma PreprocessShape(trig: Trig, ss: SeismicSignalExtractor.SampledSignal)
    requires |ss.amplitudes| != 1
    ensures |PreprocessSpec(trig, ss).samples| == |ss.amplitudes|
    ensures Sum(Demeaned(ss.amplitudes)) == 0.0
  {
    DemeanedSumsToZero(ss.amplitudes);
  }

  // ---------------------------------------------------------------- prepareData

  /** The signals of one station, by channel code. */
  type SignalMap = map<string, SeismicSignalExtractor.SampledSignal>

  /** The vertical channel, the one used for P-wave detection. */
  const Vertical: string := "BHZ"

  /** The station has a vertical channel with non-zero latitude and longitude. */
  predicate HasCoordinates(m: SignalMap)
  {
    Vertical in m && m[Vertical].latitude != 0.0 && m[Vertical].longitude != 0.0
  }

  function CoordsOf(m: SignalMap): LatLon
    requires Vertical in m
  {
    LatLon(m[Vertical].latitude, m[Vertical].longitude)
  }

  /** The coordinates collected for the reference point, in station order; stations without
    * them are left out. */
  function Coordinates(group: seq<SignalMap>): seq<LatLon>
  {
    if group == [] then []
    else Coordinates(group[..|group| - 1])
         + (if HasCoordinates(group[|group| - 1]) then [CoordsOf(group[|group| - 1])] else [])
  }

  /** All stations have coordinates exactly when none is left out, and then the list is
    * theirs, in order. */
  lemma {:induction false} CoordinatesAll(group: seq<SignalMap>)
    ensures |Coordinates(group)| <= |group|
    ensures |Coordinates(group)| == |group| <==> forall k :: 0 <= k < |group| ==> HasCoordinates(group[k])
    ensures |Coordinates(group)| == |group| ==>
              forall k :: 0 <= k < |group| ==> Coordinates(group)[k] == CoordsOf(group[k])
  {
    if group != [] {
      var init := group[..|group| - 1];
      CoordinatesAll(init);
      assert forall k :: 0 <= k < |init| ==> init[k] == group[k];
    }
  }

  /** A prepared station entry, as values. */
  datatype Prepared = Prepared(signal: Signal, station: Station, channel: string, ref: LatLon)

  function Describe(d: StationData): Prepared
  {
    Prepared(d.pipelineSignal, d.station, d.channel, RefPoint(d))
  }

  function Described(data: seq<StationData>): (r: seq<Prepared>)
    ensures |r| == |data|
  {
    seq(|data|, k requires 0 <= k < |data| => Describe(data[k]))
  }

  /** Every station with coordinates has a vertical channel the Hamming window accepts. */
  predicate Preprocessable(all: seq<SignalMap>)
  {
    forall k :: 0 <= k < |all| && HasCoordinates(all[k]) ==> |all[k][Vertical].amplitudes| != 1
  }

  /** A station of a complete event: its preprocessed vertical signal and its position around
    * the event's reference point, arrival time 0. */
  function PreparedStation(trig: Trig, m: SignalMap, ref: LatLon): Prepared
    requires HasCoordinates(m) && |m[Vertical].amplitudes| != 1
  {
    var q := ToLocalXY(trig, CoordsOf(m), ref);
    Prepared(PreprocessSpec(trig, m[Vertical]), Station(q.x, q.y, 0.0), Vertical, ref)
  }

  /** The three entries of an event, or none when a station lacks coordinates. The reference
    * point is the mean of the three stations' coordinates. */
  function EventSpec(trig: Trig, group: seq<SignalMap>): seq<Prepared>
    requires |group| == 3 && Preprocessable(group)
  {
    if !(HasCoordinates(group[0]) && HasCoordinates(group[1]) && HasCoordinates(group[2])) then []
    else
      var ref := MeanPoint([CoordsOf(group[0]), CoordsOf(group[1]), CoordsOf(group[2])]);
      [PreparedStation(trig, group[0], ref), PreparedStation(trig, group[1], ref),
       PreparedStation(trig, group[2], ref)]
  }

  /** The groups of three from index `i` on; a trailing short group is skipped. */
  function PrepareFrom(trig: Trig, all: seq<SignalMap>, i: int): seq<Prepared>
    requires 0 <= i && Preprocessable(all)
    decreases |all| - i
  {
    if i + 3 > |all| then []
    else EventSpec(trig, all[i..i + 3]) + PrepareFrom(trig, all, i + 3)
  }

  /** One event of `prepareData`: collect the coordinates, average them, then build the three
    * stations. */
  method PrepareEvent(trig: Trig, group: seq<SignalMap>) returns (triple: seq<StationData>)
    requires |group| == 3 && Preprocessable(group)
    ensures Distinct(triple) && forall k :: 0 <= k < |triple| ==> fresh(triple[k])
    ensures forall k :: 0 <= k < |triple| ==> triple[k].arrivalTimeSec == 0.0
    ensures Described(triple) == EventSpec(trig, group)
  {
    var currentCoords := CollectCoordinates(group);
    CoordinatesAll(group);
    if |currentCoords| < 3 {
      return [];
    }
    var reference := CalculateReferencePoint(currentCoords);
    var ref := reference.value;
    assert currentCoords == [CoordsOf(group[0]), CoordsOf(group[1]), CoordsOf(group[2])];
    triple := BuildStations(trig, group, ref);
  }

  /** The coordinates of the stations of a group that have them, in order. */
  method CollectCoordinates(group: seq<SignalMap>) returns (currentCoords: seq<LatLon>)
    ensures currentCoords == Coordinates(group)
  {
    currentCoords := [];
    for j := 0 to |group|
      invariant currentCoords == Coordinates(group[..j])
    {
      assert group[..j + 1][..j] == group[..j];
      if HasCoordinates(group[j]) {
        currentCoords := currentCoords + [CoordsOf(group[j])];
      }
    }
    assert group[..|group|] == group;
  }

  /** The three station objects of a complete event around the reference point `ref`. */
  method BuildStations(trig: Trig, group: seq<SignalMap>, ref: LatLon) returns (triple: seq<StationData>)
    requires |group| == 3 && Preprocessable(group)
    requires forall k :: 0 <= k < 3 ==> HasCoordinates(group[k])
    ensures |triple| == 3 && Distinct(triple)
    ensures forall k :: 0 <= k < 3 ==> fresh(triple[k]) && triple[k].arrivalTimeSec == 0.0
    ensures forall k :: 0 <= k < 3 ==> Describe(triple[k]) == PreparedStation(trig, group[k], ref)
  {
    triple := [];
    for j := 0 to 3
      invariant |triple| == j && Distinct(triple)
      invariant forall k :: 0 <= k < j ==> fresh(triple[k]) && triple[k].arrivalTimeSec == 0.0
      invariant forall k :: 0 <= k < j ==> Describe(triple[k]) == PreparedStation(trig, group[k], ref)
    {
      var ss := group[j][Vertical];
      var pipelineSignal := Preprocess(trig, ss);
      var localXY := ToLocalXY(trig, LatLon(ss.latitude, ss.longitude), ref);
      var station := Station(localXY.x, localXY.y, 0.0);
      var d := new StationData(pipelineSignal, station, Vertical, ref.lat, ref.lon);
      triple := triple + [d];
    }
  }

  /** `prepareData`: the events in order, three stations each, every arrival time 0. */
  method PrepareData(trig: Trig, all: seq<SignalMap>) returns (data: seq<StationData>)
    requires Preprocessable(all)
    ensures Distinct(data) && fresh(Objects(data))
    ensures forall k :: 0 <= k < |data| ==> data[k].arrivalTimeSec == 0.0
    ensures Described(data) == PrepareFrom(trig, all, 0)
  {
    data := [];
    var i := 0;
    while i < |all|
      invariant 0 <= i
      invariant Distinct(data) && fresh(Objects(data))
      invariant forall k :: 0 <= k < |data| ==> data[k].arrivalTimeSec == 0.0
      invariant PrepareFrom(trig, all, 0) == Described(data) + PrepareFrom(trig, all, i)
      decreases |all| - i
    {
      data := PrepareStep(trig, all, i, data);
      i := i + 3;
    }
  }

  /** The body of the loop of `prepareData` for the group starting at `i`: a short group is
    * skipped, a complete one is prepared and appended. */
  method PrepareStep(trig: Trig, all: seq<SignalMap>, i: int, data: seq<StationData>)
    returns (data': seq<StationData>)
    requires 0 <= i < |all| && Preprocessable(all) && Distinct(data)
    requires forall k :: 0 <= k < |data| ==> data[k].arrivalTimeSec == 0.0
    ensures Distinct(data') && fresh(Objects(data') - Objects(data))
    ensures forall k :: 0 <= k < |data'| ==> data'[k].arrivalTimeSec == 0.0
    ensures Described(data') + PrepareFrom(trig, all, i + 3) == Described(data) + PrepareFrom(trig, all, i)
  {
    var currentEventSignals := EventGroup(all, i);
    if |currentEventSignals| < 3 {
      return data;
    }
    PrepareFromStep(trig, all, i);
    data' := AppendEvent(trig, currentEventSignals, data);
  }

  /** The station objects of a list. */
  function Objects(data: seq<StationData>): set<StationData>
  {
    set k | 0 <= k < |data| :: data[k]
  }

  /** The body of `prepareData` for a complete group: its stations join the list. */
  method AppendEvent(trig: Trig, group: seq<SignalMap>, data: seq<StationData>) returns (data': seq<StationData>)
    requires |group| == 3 && Preprocessable(group) && Distinct(data)
    requires forall k :: 0 <= k < |data| ==> data[k].arrivalTimeSec == 0.0
    ensures Distinct(data') && |data| <= |data'| && data'[..|data|] == data
    ensures fresh(Objects(data') - Objects(data))
    ensures forall k :: 0 <= k < |data'| ==> data'[k].arrivalTimeSec == 0.0
    ensures Described(data') == Described(data) + EventSpec(trig, group)
  {
    var triple := PrepareEvent(trig, group);
    assert forall x :: 0 <= x < |data| ==> data[x] !in triple;
    DistinctAppend(data, triple);
    AppendDescribed(data, triple);
    data' := data + triple;
    assert data'[..|data|] == data;
    assert forall o :: o in Objects(data') ==> o in Objects(data) || o in triple;
  }

  /** A complete group of three, then the groups after it. */
  lemma PrepareFromStep(trig: Trig, all: seq<SignalMap>, i: int)
    requires 0 <= i && i + 3 <= |all| && Preprocessable(all)
    ensures Preprocessable(all[i..i + 3])
    ensures PrepareFrom(trig, all, i) == EventSpec(trig, all[i..i + 3]) + PrepareFrom(trig, all, i + 3)
  {
    var g := all[i..i + 3];
    assert forall k :: 0 <= k < 3 ==> g[k] == all[i + k];
  }

  lemma DistinctAppend(a: seq<StationData>, b: seq<StationData>)
    requires Distinct(a) && Distinct(b)
    requires forall x :: 0 <= x < |a| ==> a[x] !in b
    ensures Distinct(a + b)
  {
    forall x, y | 0 <= x < y < |a + b| ensures (a + b)[x] != (a + b)[y] {
      if y < |a| {
        assert (a + b)[x] == a[x] && (a + b)[y] == a[y];
      } else if x < |a| {
        assert (a + b)[x] == a[x] && (a + b)[y] == b[y - |a|] && b[y - |a|] in b;
      } else {
        assert (a + b)[x] == b[x - |a|] && (a + b)[y] == b[y - |a|];
      }
    }
  }

  /** The stations of the event starting at `i`: up to three, fewer at the end of the list. */
  method EventGroup(all: seq<SignalMap>, i: int) returns (group: seq<SignalMap>)
    requires 0 <= i < |all|
    ensures group == all[i..MinInt(i + 3, |all|)]
  {
    group := [];
    var j := 0;
    while j < 3 && i + j < |all|
      invariant 0 <= j <= 3 && i + j <= |all|
      invariant group == all[i..i + j]
    {
      group := group + [all[i + j]];
      j := j + 1;
    }
  }

  lemma AppendDescribed(a: seq<StationData>, b: seq<StationData>)
    ensures Described(a + b) == Described(a) + Described(b)
  {
    assert forall k :: 0 <= k < |a + b| ==> Described(a + b)[k] == (Described(a) + Described(b))[k];
  }

  /** The three entries of a prepared event share the reference point, are on the vertical
    * channel, start with arrival time 0, and sit around the reference point so that their
    * centroid, where the solver starts, is the origin. */
  predicate PreparedTriple(tr: seq<Prepared>)
  {
    |tr| == 3 && tr[0].ref == tr[1].ref == tr[2].ref
    && (forall k :: 0 <= k < 3 ==> tr[k].channel == Vertical && tr[k].station.arrivalTime == 0.0)
    && Centroid([tr[0].station, tr[1].station, tr[2].station]) == Point(0.0, 0.0)
  }

  lemma EventSpecTriple(trig: Trig, group: seq<SignalMap>)
    requires |group| == 3 && Preprocessable(group)
    ensures var r := EventSpec(trig, group);
            (r == [] || PreparedTriple(r))
            && (r != [] <==> forall k :: 0 <= k < 3 ==> HasCoordinates(group[k]))
  {
    var r := EventSpec(trig, group);
    if r != [] {
      var c := [CoordsOf(group[0]), CoordsOf(group[1]), CoordsOf(group[2])];
      var ref := MeanPoint(c);
      SumsOfThree(c);
      var s := [r[0].station, r[1].station, r[2].station];
      StationSumsOfThree(s);
      CentredSum(trig, c, ref);
    }
  }

  lemma SumsOfThree(c: seq<LatLon>)
    requires |c| == 3
    ensures SumLat(c) == c[0].lat + c[1].lat + c[2].lat
    ensures SumLon(c) == c[0].lon + c[1].lon + c[2].lon
  {
    var c2, c1 := c[..2], c[..1];
    assert c2[..1] == c1 && c1[..0] == [];
    assert SumLat(c1) == c[0].lat && SumLon(c1) == c[0].lon;
    assert SumLat(c2) == SumLat(c1) + c[1].lat && SumLon(c2) == SumLon(c1) + c[1].lon;
    assert SumLat(c) == SumLat(c2) + c[2].lat && SumLon(c) == SumLon(c2) + c[2].lon;
  }

  lemma StationSumsOfThree(s: seq<Station>)
    requires |s| == 3
    ensures SumX(s) == s[0].x + s[1].x + s[2].x
    ensures SumY(s) == s[0].y + s[1].y + s[2].y
  {
    var s2, s1 := s[..2], s[..1];
    assert s2[..1] == s1 && s1[..0] == [];
    assert SumX(s1) == s[0].x && SumY(s1) == s[0].y;
    assert SumX(s2) == SumX(s1) + s[1].x && SumY(s2) == SumY(s1) + s[1].y;
    assert SumX(s) == SumX(s2) + s[2].x && SumY(s) == SumY(s2) + s[2].y;
  }

  /** The local coordinates of three points around their mean sum to zero. */
  lemma CentredSum(trig: Trig, c: seq<LatLon>, ref: LatLon)
    requires |c| == 3
    requires ref.lat == (c[0].lat + c[1].lat + c[2].lat) / 3.0
    requires ref.lon == (c[0].lon + c[1].lon + c[2].lon) / 3.0
    ensures ToLocalXY(trig, c[0], ref).x + ToLocalXY(trig, c[1], ref).x + ToLocalXY(trig, c[2], ref).x == 0.0
    ensures ToLocalXY(trig, c[0], ref).y + ToLocalXY(trig, c[1], ref).y + ToLocalXY(trig, c[2], ref).y == 0.0
  {
    var cosRef := trig.cos(ToRadians(ref.lat));
    var d0 := EarthRadiusKm * (ToRadians(c[0].lon) - ToRadians(ref.lon));
    var d1 := EarthRadiusKm * (ToRadians(c[1].lon) - ToRadians(ref.lon));
    var d2 := EarthRadiusKm * (ToRadians(c[2].lon) - ToRadians(ref.lon));
    assert d0 + d1 + d2 == 0.0;
    assert Times(d0, cosRef) + Times(d1, cosRef) + Times(d2, cosRef) == Times(d0 + d1 + d2, cosRef);
  }

  /** The entries come in consecutive `PreparedTriple`s. */
  predicate AllTriples(r: seq<Prepared>)
  {
    |r| % 3 == 0 && forall t :: 0 <= t < |r| / 3 ==> PreparedTriple(r[3 * t..3 * t + 3])
  }

  lemma TriplesAppend(head: seq<Prepared>, rest: seq<Prepared>)
    requires head == [] || PreparedTriple(head)
    requires AllTriples(rest)
    ensures AllTriples(head + rest)
  {
    if head != [] {
      var r := head + rest;
      forall t | 0 <= t < |r| / 3
        ensures PreparedTriple(r[3 * t..3 * t + 3])
      {
        if t == 0 {
          assert r[0..3] == head;
        } else {
          assert r[3 * t..3 * t + 3] == rest[3 * (t - 1)..3 * (t - 1) + 3];
        }
      }
    }
  }

  /** `prepareData` emits whole events only: three entries per group of three stations that
    * all have coordinates, each group a `PreparedTriple`. */
  lemma {:induction false} PrepareFromTriples(trig: Trig, all: seq<SignalMap>, i: int)
    requires 0 <= i && Preprocessable(all)
    ensures AllTriples(PrepareFrom(trig, all, i))
    decreases |all| - i
  {
    if i + 3 <= |all| {
      EventSpecTriple(trig, all[i..i + 3]);
      PrepareFromTriples(trig, all, i + 3);
      TriplesAppend(EventSpec(trig, all[i..i + 3]), PrepareFrom(trig, all, i + 3));
    }
  }
}
