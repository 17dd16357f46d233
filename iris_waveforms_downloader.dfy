/** `IRISWaveformsDownloader`: chooses the seismic station whose waveform is downloaded for an
  * earthquake and retries with a wider search when the data service has no content.
  *
  * The network is abstracted: the station service is a function from the search radius to its
  * reply (or to a failed send), the data service a function from the requested station (whose
  * query it receives) to the HTTP status (or to a failed send). `Double.parseDouble` and the haversine distance are
  * parameters too. A station is written to the data service as the query fragment
  * `network=NET&station=STA&`, and its key is `NET.STA`. */
module IrisWaveformsDownloader {
  import opened Wrappers
  import opened JavaText
  import opened StableSort

  /** The search radius of the first station search, in degrees. */
  const DefaultRadius: int := 20

  /** How much each retry widens the search, in degrees. */
  const RadiusStep: int := 10

  /** Retries after the first download. */
  const MaxRetries: int := 3

  const HttpOk: int := 200
  const HttpNoContent: int := 204

  datatype Station = Station(network: string, station: string)

  /** The query fragment `String.format("network=%s&station=%s&", net, sta)`. */
  function Query(s: Station): string
  {
    "network=" + s.network + "&station=" + s.station + "&"
  }

  /** The key `NET.STA` under which a station is excluded from later searches. */
  function Key(s: Station): string
  {
    s.network + "." + s.station
  }

  /** Neither code contains the parameter separator of a query. */
  predicate PlainCodes(s: Station)
  {
    '&' !in s.network && '&' !in s.station
  }

  // ---------------------------------------------------------------- extractStationKey

  datatype KeyError = MalformedStationQuery(query: string)

  /** The value after `prefix` of the last parameter that starts with it. */
  function LastParam(params: seq<string>, prefix: string): (r: Option<string>)
  {
    if params == [] then None
    else if StartsWith(params[|params| - 1], prefix) then Some(params[|params| - 1][|prefix|..])
    else LastParam(params[..|params| - 1], prefix)
  }

  /** What `extractStationKey` computes: the last `network=` and `station=` values joined by a
    * dot, or the `IllegalArgumentException` when either parameter is missing. */
  function StationKeyOf(query: string): Result<string, KeyError>
  {
    var params := Split(query, '&');
    match (LastParam(params, "network="), LastParam(params, "station="))
    case (Some(network), Some(station)) => Ok(network + "." + station)
    case _ => Err(MalformedStationQuery(query))
  }

  /** `extractStationKey`: the loop over the '&'-separated parameters that keeps overwriting
    * `network` and `station`. */
  method ExtractStationKey(stationQuery: string) returns (r: Result<string, KeyError>)
    ensures r == StationKeyOf(stationQuery)
  {
    var network: Option<string> := None;
    var station: Option<string> := None;
    var params := Split(stationQuery, '&');
    for i := 0 to |params|
      invariant network == LastParam(params[..i], "network=")
      invariant station == LastParam(params[..i], "station=")
    {
      assert params[..i + 1][..i] == params[..i];
      var param := params[i];
      if StartsWith(param, "network=") {
        network := Some(param[8..]);
      } else if StartsWith(param, "station=") {
        station := Some(param[8..]);
      }
    }
    assert params[..|params|] == params;
    if network.None? || station.None? {
      return Err(MalformedStationQuery(stationQuery));
    }
    return Ok(network.value + "." + station.value);
  }

  /** A parameter with the prefix anywhere in the list makes the lookup succeed. */
  lemma {:induction false} LastParamFound(params: seq<string>, prefix: string, j: int)
    requires 0 <= j < |params| && StartsWith(params[j], prefix)
    ensures LastParam(params, prefix).Some?
    decreases |params|
  {
    if j < |params| - 1 && !StartsWith(params[|params| - 1], prefix) {
      LastParamFound(params[..|params| - 1], prefix, j);
    }
  }

  /** Splitting text glued at a separator gives the fields of both pieces. */
  lemma FieldsAppend(a: string, b: string, sep: char)
    ensures Fields(a + [sep] + b, sep) == Fields(a, sep) + Fields(b, sep)
  {
    var fa, fb := Fields(a, sep), Fields(b, sep);
    assert a + [sep] + b == Join(fa + fb, sep) by {
      FieldsJoin(a, sep);
      FieldsJoin(b, sep);
      JoinAppend(fa, fb, sep);
    }
    SeparatorFreeConcat(fa, fb, sep);
    JoinFields(fa + fb, sep);
  }

  lemma SeparatorFreeConcat(fa: seq<string>, fb: seq<string>, sep: char)
    requires forall i :: 0 <= i < |fa| ==> sep !in fa[i]
    requires forall i :: 0 <= i < |fb| ==> sep !in fb[i]
    ensures forall i :: 0 <= i < |fa + fb| ==> sep !in (fa + fb)[i]
  {
    forall i | 0 <= i < |fa + fb| ensures sep !in (fa + fb)[i] {
      if i >= |fa| { assert (fa + fb)[i] == fb[i - |fa|]; }
    }
  }

  lemma FieldsHead(x: string, sep: char)
    ensures Fields(x, sep)[0] == x[..FirstIndexFrom(x, sep, 0)]
  {
  }

  /** A field list's first element begins with any separator-free prefix of the text. */
  lemma FieldsHeadPrefix(prefix: string, rest: string, sep: char)
    requires sep !in prefix
    ensures StartsWith(Fields(prefix + rest, sep)[0], prefix)
  {
    var x := prefix + rest;
    FieldsHead(x, sep);
    var i := FirstIndexFrom(x, sep, 0);
    assert x[..|prefix|] == prefix;
  }

  /** Every query `Query` writes holds both parameters, whatever the codes contain, so
    * `extractStationKey` never throws on a station the downloader chose. */
  lemma QueryHasKey(s: Station)
    ensures StationKeyOf(Query(s)).Ok?
  {
    var fa := Fields("network=" + s.network, '&');
    var fs := Fields(Query(s), '&');
    QueryFields(s);
    FieldsHeadPrefix("network=", s.network, '&');
    FieldsHeadPrefix("station=", s.station, '&');
    var params := Split(Query(s), '&');
    assert params == DropTrailingEmpty(fs);
    assert fs[0] != "" && fs[|fa|] != "";
    assert params[0] == fs[0];
    assert params[|fa|] == fs[|fa|];
    LastParamFound(params, "network=", 0);
    LastParamFound(params, "station=", |fa|);
  }

  /** The fields of a station query begin with those of its network parameter, followed by
    * those of its station parameter. */
  lemma QueryFields(s: Station)
    ensures var fa := Fields("network=" + s.network, '&');
            var fs := Fields(Query(s), '&');
            |fa| < |fs| && fs[0] == fa[0] && fs[|fa|] == Fields("station=" + s.station, '&')[0]
  {
    var fa := Fields("network=" + s.network, '&');
    var fb := Fields("station=" + s.station, '&');
    var fs := Fields(Query(s), '&');
    QueryFieldsConcat(s);
    assert fs[0] == fa[0];
    assert fs[|fa|] == fb[0];
  }

  lemma QueryFieldsConcat(s: Station)
    ensures Fields(Query(s), '&')
            == Fields("network=" + s.network, '&') + (Fields("station=" + s.station, '&') + Fields("", '&'))
  {
    var a := "network=" + s.network;
    var b := "station=" + s.station;
    assert Query(s) == a + ['&'] + (b + ['&'] + "");
    FieldsAppend(a, b + ['&'] + "", '&');
    FieldsAppend(b, "", '&');
  }

  /** Splitting `a sep b` gives back `a` and `b` when neither contains the separator. */
  lemma SplitTwo(a: string, b: string, sep: char)
    requires sep !in a && sep !in b && b != ""
    ensures Split(a + [sep] + b, sep) == [a, b]
  {
    assert Join([a, b], sep) == a + [sep] + b;
    JoinFields([a, b], sep);
  }

  /** The parameters of a query with plain codes are exactly its two fields. */
  lemma QueryParams(s: Station)
    requires PlainCodes(s)
    ensures Split(Query(s), '&') == ["network=" + s.network, "station=" + s.station]
  {
    var a := "network=" + s.network;
    var b := "station=" + s.station;
    assert [a, b, ""][1..] == [b, ""] && [b, ""][1..] == [""];
    assert Join([b, ""], '&') == b + ['&'];
    assert Join([a, b, ""], '&') == a + ['&'] + (b + ['&']);
    assert Query(s) == a + ['&'] + (b + ['&']);
    JoinFields([a, b, ""], '&');
  }

  /** The round trip: the key read back from a station's query is the station's key. */
  lemma StationKeyRoundTrip(s: Station)
    requires PlainCodes(s)
    ensures StationKeyOf(Query(s)) == Ok(Key(s))
  {
    var a := "network=" + s.network;
    var b := "station=" + s.station;
    QueryParams(s);
    assert a[..8] == "network=" && b[..8] == "station=";
    assert a[0] != b[0];
    assert [a, b][..1] == [a];
    assert LastParam([a, b], "network=") == Some(s.network);
    assert LastParam([a, b], "station=") == Some(s.station);
  }

  // ---------------------------------------------------------------- fallbackStation

  /** The default station of each region, as "NET STA". */
  function DefaultStation(latitude: real, longitude: real): string
  {
    if latitude >= 55.0 && longitude < 60.0 then "II OBN"
    else if latitude >= 55.0 then "IU YAK"
    else if latitude >= 40.0 && longitude < 40.0 then "GE FUR"
    else if latitude < 40.0 && longitude < 60.0 then "IU ANTO"
    else if longitude > 100.0 then "IC BJT"
    else "IU TLY"
  }

  /** Codes with no space, no separator and nothing `trim` removes. */
  predicate PrintableCode(x: string)
  {
    forall i :: 0 <= i < |x| ==> ' ' < x[i] && x[i] != '&'
  }

  lemma TrimPrintable(x: string)
    requires PrintableCode(x)
    ensures Trim(x) == x
  {
    assert TrimStart(x) == x;
  }

  /** "NET STA" split at the space and trimmed gives the station back. */
  lemma SplitDefault(network: string, station: string)
    requires PrintableCode(network) && PrintableCode(station) && station != ""
    ensures var ds := Split(network + " " + station, ' ');
            |ds| == 2 && Station(Trim(ds[0]), Trim(ds[1])) == Station(network, station)
  {
    SplitTwo(network, station, ' ');
    TrimPrintable(network);
    TrimPrintable(station);
  }

  /** The first-match region table, as the codes each default names. */
  function DefaultCodes(latitude: real, longitude: real): Station
  {
    if latitude >= 55.0 && longitude < 60.0 then Station("II", "OBN")
    else if latitude >= 55.0 then Station("IU", "YAK")
    else if latitude >= 40.0 && longitude < 40.0 then Station("GE", "FUR")
    else if latitude < 40.0 && longitude < 60.0 then Station("IU", "ANTO")
    else if longitude > 100.0 then Station("IC", "BJT")
    else Station("IU", "TLY")
  }

  /** Each default is its codes joined by a space, and the codes are plain. */
  lemma DefaultIsCodes(latitude: real, longitude: real)
    ensures var s := DefaultCodes(latitude, longitude);
            DefaultStation(latitude, longitude) == s.network + " " + s.station
            && PrintableCode(s.network) && PrintableCode(s.station) && s.station != ""
  {
  }

  /** `fallbackStation`: the default station split at the space, both parts trimmed. */
  function FallbackStation(latitude: real, longitude: real): Station
  {
    var codes := DefaultCodes(latitude, longitude);
    DefaultIsCodes(latitude, longitude);
    SplitDefault(codes.network, codes.station);
    var ds := Split(DefaultStation(latitude, longitude), ' ');
    Station(Trim(ds[0]), Trim(ds[1]))
  }

  /** Splitting and trimming the default gives the codes of the region table. */
  lemma FallbackTable(latitude: real, longitude: real)
    ensures FallbackStation(latitude, longitude) == DefaultCodes(latitude, longitude)
  {
    var codes := DefaultCodes(latitude, longitude);
    DefaultIsCodes(latitude, longitude);
    SplitDefault(codes.network, codes.station);
  }

  /** The round trip: `extractStationKey(fallbackStation(lat, lon))` is the chosen default's
    * `NET.STA`. */
  lemma FallbackRoundTrip(latitude: real, longitude: real)
    ensures var s := FallbackStation(latitude, longitude);
            StationKeyOf(Query(s)) == Ok(Key(s))
            && DefaultStation(latitude, longitude) == s.network + " " + s.station
  {
    FallbackTable(latitude, longitude);
    DefaultIsCodes(latitude, longitude);
    StationKeyRoundTrip(DefaultCodes(latitude, longitude));
  }

  // ---------------------------------------------------------------- strokeWithNearestStation

  /** `StationDistance`: a candidate station, its coordinates and its distance to the quake. */
  datatype StationDistance = StationDistance(station: Station, latitude: real, longitude: real, distanceKm: real)

  /** The station service's reply: a failed send, or a status code and a text body. */
  datatype StationReply = SendFailed | Reply(status: int, body: string)

  /** How one line of the station list is handled: skipped, a candidate, or a coordinate that
    * does not parse, whose exception ends the scan (the catch keeps the candidates so far). */
  datatype LineOutcome = Skip | Abort | Candidate(candidate: StationDistance)

  /** `EarthquakeFeature.haversine(lat1, lon1, lat2, lon2)`. */
  type Haversine = (real, real, real, real) -> real

  function DistanceKm(sd: StationDistance): real { sd.distanceKm }

  /** One line of the text reply, as the body of the scan handles it. */
  function ClassifyLine(raw: string, excluded: set<string>, parseDouble: string -> Option<real>,
                        haversine: Haversine, latitude: real, longitude: real): LineOutcome
  {
    var line := Trim(raw);
    if line == "" || StartsWith(line, "#") then Skip
    else ClassifyFields(Split(line, '|'), excluded, parseDouble, haversine, latitude, longitude)
  }

  /** The '|'-separated fields of a data line: network, station, _, _, latitude, longitude. */
  function ClassifyFields(parts: seq<string>, excluded: set<string>, parseDouble: string -> Option<real>,
                          haversine: Haversine, latitude: real, longitude: real): LineOutcome
  {
    if |parts| < 6 then Skip
    else ClassifyStation(Station(Trim(parts[0]), Trim(parts[1])), parseDouble(Trim(parts[4])),
                         parseDouble(Trim(parts[5])), excluded, haversine, latitude, longitude)
  }

  /** A listed station with its parsed coordinates. */
  function ClassifyStation(station: Station, statLat: Option<real>, statLon: Option<real>, excluded: set<string>,
                           haversine: Haversine, latitude: real, longitude: real): LineOutcome
  {
    if statLat.None? || statLon.None? then Abort
    else if Key(station) in excluded then Skip
    else Candidate(StationDistance(station, statLat.value, statLon.value,
                                   haversine(latitude, longitude, statLat.value, statLon.value)))
  }

  /** How each line of the reply is handled, line by line. */
  function Outcomes(lines: seq<string>, excluded: set<string>, parseDouble: string -> Option<real>,
                    haversine: Haversine, latitude: real, longitude: real): (r: seq<LineOutcome>)
    ensures |r| == |lines|
  {
    if lines == [] then []
    else [ClassifyLine(lines[0], excluded, parseDouble, haversine, latitude, longitude)]
         + Outcomes(lines[1..], excluded, parseDouble, haversine, latitude, longitude)
  }

  lemma {:induction false} OutcomeAt(lines: seq<string>, i: int, excluded: set<string>, parseDouble: string -> Option<real>,
                                     haversine: Haversine, latitude: real, longitude: real)
    requires 0 <= i < |lines|
    ensures Outcomes(lines, excluded, parseDouble, haversine, latitude, longitude)[i]
            == ClassifyLine(lines[i], excluded, parseDouble, haversine, latitude, longitude)
    decreases i
  {
    if i > 0 {
      OutcomeAt(lines[1..], i - 1, excluded, parseDouble, haversine, latitude, longitude);
    }
  }

  /** The candidates of a run of outcomes, in order, up to the first `Abort`. */
  function Gather(outcomes: seq<LineOutcome>): seq<StationDistance>
  {
    if outcomes == [] then [] else Collect(outcomes[0], Gather(outcomes[1..]))
  }

  /** What one line's outcome contributes in front of the candidates of the lines after it. */
  function Collect(outcome: LineOutcome, rest: seq<StationDistance>): seq<StationDistance>
  {
    match outcome
    case Skip => rest
    case Abort => []
    case Candidate(sd) => [sd] + rest
  }

  /** The candidates the scan collects from the lines, in line order, up to the first line
    * whose coordinates do not parse. */
  function Candidates(lines: seq<string>, excluded: set<string>, parseDouble: string -> Option<real>,
                      haversine: Haversine, latitude: real, longitude: real): seq<StationDistance>
  {
    Gather(Outcomes(lines, excluded, parseDouble, haversine, latitude, longitude))
  }

  /** The lines of a successful reply. Splitting at '\n' and trimming each line is what
    * splitting at `\r?\n` and trimming gives; an empty or blank body has no candidate line. */
  function ReplyLines(reply: StationReply): seq<string>
  {
    if reply.Reply? && reply.status == HttpOk then Split(reply.body, '\n') else []
  }

  /** What `strokeWithNearestStation` returns: the candidate of least distance (the first of
    * them, the sort being stable), or else the fallback station unless its key was visited. */
  function NearestStation(latitude: real, longitude: real, maxRadius: int, excluded: set<string>,
                          stationService: int -> StationReply, parseDouble: string -> Option<real>,
                          haversine: Haversine): Option<Station>
  {
    var founded := Candidates(ReplyLines(stationService(maxRadius)), excluded, parseDouble, haversine, latitude, longitude);
    if founded != [] then Some(SortBy(founded, DistanceKm)[0].station)
    else
      var fallback := DefaultCodes(latitude, longitude);
      if Key(fallback) in excluded then None else Some(fallback)
  }

  /** The body of the scan for one line of the reply. */
  method ScanLine(raw: string, excludedStations: set<string>, parseDouble: string -> Option<real>,
                  haversine: Haversine, latitude: real, longitude: real)
    returns (outcome: LineOutcome)
    ensures outcome == ClassifyLine(raw, excludedStations, parseDouble, haversine, latitude, longitude)
  {
    var line := Trim(raw);
    if line == "" || StartsWith(line, "#") {
      return Skip;
    }
    outcome := ScanFields(Split(line, '|'), excludedStations, parseDouble, haversine, latitude, longitude);
  }

  /** The part of the scan body after the line is split at '|'. */
  method ScanFields(parts: seq<string>, excludedStations: set<string>, parseDouble: string -> Option<real>,
                    haversine: Haversine, latitude: real, longitude: real)
    returns (outcome: LineOutcome)
    ensures outcome == ClassifyFields(parts, excludedStations, parseDouble, haversine, latitude, longitude)
  {
    if |parts| < 6 {
      return Skip;
    }
    var net := Trim(parts[0]);
    var st := Trim(parts[1]);
    var statLat := parseDouble(Trim(parts[4]));
    var statLon := parseDouble(Trim(parts[5]));
    outcome := ScanStation(Station(net, st), statLat, statLon, excludedStations, haversine, latitude, longitude);
  }

  /** The part of the scan body after the fields are trimmed and the coordinates parsed. */
  method ScanStation(station: Station, statLat: Option<real>, statLon: Option<real>, excludedStations: set<string>,
                     haversine: Haversine, latitude: real, longitude: real)
    returns (outcome: LineOutcome)
    ensures outcome == ClassifyStation(station, statLat, statLon, excludedStations, haversine, latitude, longitude)
  {
    if statLat.None? || statLon.None? {
      return Abort;
    }
    var stationKey := station.network + "." + station.station;
    if stationKey in excludedStations {
      return Skip;
    }
    return Candidate(StationDistance(station, statLat.value, statLon.value,
                                     haversine(latitude, longitude, statLat.value, statLon.value)));
  }

  /** The scan of `strokeWithNearestStation` over the lines of the reply, appending to
    * `founded`; a coordinate that does not parse throws, and the catch ends the scan. */
  method CollectCandidates(lines: seq<string>, excludedStations: set<string>, parseDouble: string -> Option<real>,
                           haversine: Haversine, latitude: real, longitude: real)
    returns (founded: seq<StationDistance>)
    ensures founded == Candidates(lines, excludedStations, parseDouble, haversine, latitude, longitude)
  {
    founded := [];
    ghost var outcomes := Outcomes(lines, excludedStations, parseDouble, haversine, latitude, longitude);
    for i := 0 to |lines|
      invariant founded + Gather(outcomes[i..]) == Gather(outcomes)
    {
      var stop;
      founded, stop := CollectLineAt(lines, i, founded, outcomes, excludedStations, parseDouble, haversine,
                                     latitude, longitude);
      if stop {
        break;
      }
    }
    assert outcomes[|lines|..] == [];
  }

  /** The body of the scan for line `i`: append a candidate, skip, or stop on an abort. */
  method CollectLineAt(lines: seq<string>, i: int, founded: seq<StationDistance>, ghost outcomes: seq<LineOutcome>,
                       excludedStations: set<string>, parseDouble: string -> Option<real>,
                       haversine: Haversine, latitude: real, longitude: real)
    returns (founded': seq<StationDistance>, stop: bool)
    requires 0 <= i < |lines|
    requires outcomes == Outcomes(lines, excludedStations, parseDouble, haversine, latitude, longitude)
    ensures stop ==> founded' + Gather(outcomes[i..]) == founded + Gather(outcomes[i..]) && Gather(outcomes[i..]) == []
    ensures !stop ==> founded' + Gather(outcomes[i + 1..]) == founded + Gather(outcomes[i..])
  {
    var outcome := ScanLineAt(lines, i, excludedStations, parseDouble, haversine, latitude, longitude);
    GatherStep(outcomes, i);
    match outcome
    case Skip =>
      return founded, false;
    case Abort =>
      return founded, true;
    case Candidate(sd) =>
      return founded + [sd], false;
  }

  /** The body of the scan for line `i`. */
  method ScanLineAt(lines: seq<string>, i: int, excludedStations: set<string>, parseDouble: string -> Option<real>,
                    haversine: Haversine, latitude: real, longitude: real)
    returns (outcome: LineOutcome)
    requires 0 <= i < |lines|
    ensures outcome == Outcomes(lines, excludedStations, parseDouble, haversine, latitude, longitude)[i]
  {
    outcome := ScanLine(lines[i], excludedStations, parseDouble, haversine, latitude, longitude);
    OutcomeAt(lines, i, excludedStations, parseDouble, haversine, latitude, longitude);
  }

  /** One step of the scan. */
  lemma GatherStep(outcomes: seq<LineOutcome>, i: int)
    requires 0 <= i < |outcomes|
    ensures Gather(outcomes[i..]) == Collect(outcomes[i], Gather(outcomes[i + 1..]))
  {
    assert outcomes[i..][0] == outcomes[i] && outcomes[i..][1..] == outcomes[i + 1..];
  }

  /** `strokeWithNearestStation`: the scan of the station list into `founded`, the sort by
    * distance and the fallback. */
  method StrokeWithNearestStation(latitude: real, longitude: real, maxRadius: int, excludedStations: set<string>,
                                  stationService: int -> StationReply, parseDouble: string -> Option<real>,
                                  haversine: Haversine)
    returns (r: Option<Station>)
    ensures r == NearestStation(latitude, longitude, maxRadius, excludedStations, stationService, parseDouble, haversine)
  {
    var response := stationService(maxRadius);
    var founded := CollectCandidates(ReplyLines(response), excludedStations, parseDouble, haversine, latitude, longitude);
    if founded != [] {
      var sorted := SortBy(founded, DistanceKm);
      return Some(sorted[0].station);
    }
    var fallback := FallbackStation(latitude, longitude);
    var fallbackKey := ExtractStationKey(Query(fallback));
    FallbackTable(latitude, longitude);
    FallbackRoundTrip(latitude, longitude);
    if fallbackKey.value in excludedStations {
      return None;
    }
    return Some(fallback);
  }

  /** The skipped lines: blank or '#' lines, lines of fewer than six fields, and stations
    * already visited; a candidate carries the trimmed codes and its distance to the quake. */
  lemma ClassifyLineProperties(raw: string, excluded: set<string>, parseDouble: string -> Option<real>,
                               haversine: Haversine, latitude: real, longitude: real)
    ensures var line := Trim(raw);
            var outcome := ClassifyLine(raw, excluded, parseDouble, haversine, latitude, longitude);
            (line == "" || StartsWith(line, "#") || |Split(line, '|')| < 6 ==> outcome == Skip)
            && (outcome.Candidate? ==>
                  var parts := Split(line, '|');
                  |parts| >= 6
                  && outcome.candidate.station == Station(Trim(parts[0]), Trim(parts[1]))
                  && Key(outcome.candidate.station) !in excluded
                  && parseDouble(Trim(parts[4])) == Some(outcome.candidate.latitude)
                  && parseDouble(Trim(parts[5])) == Some(outcome.candidate.longitude)
                  && outcome.candidate.distanceKm
                     == haversine(latitude, longitude, outcome.candidate.latitude, outcome.candidate.longitude))
            && (outcome.Abort? <==>
                  line != "" && !StartsWith(line, "#") && |Split(line, '|')| >= 6
                  && (parseDouble(Trim(Split(line, '|')[4])).None? || parseDouble(Trim(Split(line, '|')[5])).None?))
  {
    var line := Trim(raw);
    if line != "" && !StartsWith(line, "#") {
      var parts := Split(line, '|');
      if |parts| >= 6 {
        ClassifyStationProperties(Station(Trim(parts[0]), Trim(parts[1])), parseDouble(Trim(parts[4])),
                                  parseDouble(Trim(parts[5])), excluded, haversine, latitude, longitude);
      }
    }
  }

  /** A listed station aborts the scan exactly when a coordinate does not parse, is skipped
    * exactly when it is excluded, and is otherwise a candidate at its haversine distance. */
  lemma ClassifyStationProperties(station: Station, statLat: Option<real>, statLon: Option<real>,
                                  excluded: set<string>, haversine: Haversine, latitude: real, longitude: real)
    ensures var outcome := ClassifyStation(station, statLat, statLon, excluded, haversine, latitude, longitude);
            (outcome.Abort? <==> statLat.None? || statLon.None?)
            && (outcome.Skip? <==> statLat.Some? && statLon.Some? && Key(station) in excluded)
            && (outcome.Candidate? ==>
                  outcome.candidate.station == station && Key(station) !in excluded
                  && statLat == Some(outcome.candidate.latitude)
                  && statLon == Some(outcome.candidate.longitude)
                  && outcome.candidate.distanceKm
                     == haversine(latitude, longitude, outcome.candidate.latitude, outcome.candidate.longitude))
  {
  }

  /** Every candidate comes from a candidate outcome, and there are no more candidates than
    * outcomes. */
  lemma {:induction false} GatherFromOutcomes(outcomes: seq<LineOutcome>)
    ensures var cs := Gather(outcomes);
            |cs| <= |outcomes|
            && forall k :: 0 <= k < |cs| ==> exists i :: 0 <= i < |outcomes| && outcomes[i] == Candidate(cs[k])
  {
    if outcomes != [] {
      var cs := Gather(outcomes);
      var rest := Gather(outcomes[1..]);
      GatherFromOutcomes(outcomes[1..]);
      forall k | 0 <= k < |cs|
        ensures exists i :: 0 <= i < |outcomes| && outcomes[i] == Candidate(cs[k])
      {
        if outcomes[0].Candidate? && k == 0 {
          assert outcomes[0] == Candidate(cs[0]);
        } else {
          var k' := if outcomes[0].Candidate? then k - 1 else k;
          assert cs[k] == rest[k'];
          var i :| 0 <= i < |outcomes[1..]| && outcomes[1..][i] == Candidate(rest[k']);
          assert outcomes[i + 1] == Candidate(cs[k]);
        }
      }
    }
  }

  /** Every candidate comes from a line of the reply, and none is a visited station. */
  lemma CandidatesFromLines(lines: seq<string>, excluded: set<string>, parseDouble: string -> Option<real>,
                            haversine: Haversine, latitude: real, longitude: real)
    ensures var cs := Candidates(lines, excluded, parseDouble, haversine, latitude, longitude);
            |cs| <= |lines|
            && (forall k :: 0 <= k < |cs| ==> Key(cs[k].station) !in excluded)
            && (forall k :: 0 <= k < |cs| ==>
                  exists i :: 0 <= i < |lines|
                              && ClassifyLine(lines[i], excluded, parseDouble, haversine, latitude, longitude) == Candidate(cs[k]))
  {
    var outcomes := Outcomes(lines, excluded, parseDouble, haversine, latitude, longitude);
    var cs := Gather(outcomes);
    GatherFromOutcomes(outcomes);
    forall k | 0 <= k < |cs|
      ensures Key(cs[k].station) !in excluded
      ensures exists i :: 0 <= i < |lines|
                && ClassifyLine(lines[i], excluded, parseDouble, haversine, latitude, longitude) == Candidate(cs[k])
    {
      var i :| 0 <= i < |outcomes| && outcomes[i] == Candidate(cs[k]);
      OutcomeAt(lines, i, excluded, parseDouble, haversine, latitude, longitude);
      assert ClassifyLine(lines[i], excluded, parseDouble, haversine, latitude, longitude) == Candidate(cs[k]);
      CandidateNotExcluded(lines[i], excluded, parseDouble, haversine, latitude, longitude);
    }
  }

  /** A candidate line never names a visited station. */
  lemma CandidateNotExcluded(raw: string, excluded: set<string>, parseDouble: string -> Option<real>,
                             haversine: Haversine, latitude: real, longitude: real)
    ensures var outcome := ClassifyLine(raw, excluded, parseDouble, haversine, latitude, longitude);
            outcome.Candidate? ==> Key(outcome.candidate.station) !in excluded
  {
  }

  /** The nearest candidate: of least distance, and the first such in scan order. */
  lemma NearestIsFirstClosest(founded: seq<StationDistance>)
    requires founded != []
    ensures var nearest := SortBy(founded, DistanceKm)[0];
            var i := FirstMinIndex(founded, DistanceKm);
            nearest == founded[i]
            && (forall j :: 0 <= j < |founded| ==> nearest.distanceKm <= founded[j].distanceKm)
            && (forall j :: 0 <= j < i ==> nearest.distanceKm < founded[j].distanceKm)
  {
    SortByHead(founded, DistanceKm);
  }

  /** No station comes back whose key was visited, and there is no station exactly when the
    * scan found no candidate and the fallback was visited already. */
  lemma NearestStationProperties(latitude: real, longitude: real, maxRadius: int, excluded: set<string>,
                                 stationService: int -> StationReply, parseDouble: string -> Option<real>,
                                 haversine: Haversine)
    ensures var r := NearestStation(latitude, longitude, maxRadius, excluded, stationService, parseDouble, haversine);
            var founded := Candidates(ReplyLines(stationService(maxRadius)), excluded, parseDouble, haversine, latitude, longitude);
            (r.Some? ==> Key(r.value) !in excluded)
            && (r.None? <==> founded == [] && Key(DefaultCodes(latitude, longitude)) in excluded)
  {
    var lines := ReplyLines(stationService(maxRadius));
    var founded := Candidates(lines, excluded, parseDouble, haversine, latitude, longitude);
    CandidatesFromLines(lines, excluded, parseDouble, haversine, latitude, longitude);
    if founded != [] {
      SortBySorted(founded, DistanceKm);
      var nearest := SortBy(founded, DistanceKm)[0];
      assert nearest in multiset(founded);
      var k :| 0 <= k < |founded| && founded[k] == nearest;
    }
  }

  /** With nothing visited yet, a station is always found. */
  lemma FirstSearchFindsStation(latitude: real, longitude: real, maxRadius: int,
                                stationService: int -> StationReply, parseDouble: string -> Option<real>,
                                haversine: Haversine)
    ensures NearestStation(latitude, longitude, maxRadius, {}, stationService, parseDouble, haversine).Some?
  {
    NearestStationProperties(latitude, longitude, maxRadius, {}, stationService, parseDouble, haversine);
  }

  // ---------------------------------------------------------------- generateWaveformResponse

  /** `WaveformResult`: the station that delivered, and the status of its download. */
  datatype WaveformResult = WaveformResult(station: Station, status: int)

  /** One run of the downloader: its result, the stations whose data was requested in order,
    * and the radii of the station searches in order. */
  datatype Run = Run(result: Option<WaveformResult>, tried: seq<Station>, radii: seq<int>)

  /** A station search: the radius and the visited keys to the station found, if any. */
  type Search = (int, set<string>) -> Option<Station>

  /** The search `strokeWithNearestStation` performs around (latitude, longitude). */
  function Searcher(latitude: real, longitude: real, stationService: int -> StationReply,
                    parseDouble: string -> Option<real>, haversine: Haversine): (r: Search)
    ensures forall radius, visited :: r(radius, visited)
              == NearestStation(latitude, longitude, radius, visited, stationService, parseDouble, haversine)
  {
    (radius: int, visited: set<string>) =>
      NearestStation(latitude, longitude, radius, visited, stationService, parseDouble, haversine)
  }

  /** The key `extractStationKey` reads back from a station's query. */
  function StationKey(s: Station): (r: string)
    ensures PlainCodes(s) ==> r == Key(s)
  {
    QueryHasKey(s);
    StationKeyRoundTripIfPlain(s);
    StationKeyOf(Query(s)).value
  }

  lemma StationKeyRoundTripIfPlain(s: Station)
    ensures PlainCodes(s) ==> StationKeyOf(Query(s)) == Ok(Key(s))
  {
    if PlainCodes(s) {
      StationKeyRoundTrip(s);
    }
  }

  /** `StationKey` as a value, for the retry loop. */
  function KeyReader(): (r: Station -> string)
    ensures forall s :: r(s) == StationKey(s)
  {
    (s: Station) => StationKey(s)
  }

  /** The retry loop from attempt `attempt` on, after `current` answered `status`; `keyOf`
    * is the key read back from a station's query. */
  function Retry(attempt: int, current: Station, status: int, visited: set<string>, radius: int,
                 search: Search, keyOf: Station -> string, download: Station -> Option<int>): Run
    requires 1 <= attempt
    decreases MaxRetries + 1 - attempt
  {
    if status == HttpNoContent && attempt <= MaxRetries then
      var visited' := visited + {keyOf(current)};
      var radius' := radius + RadiusStep;
      match search(radius', visited')
      case None => Run(None, [], [radius'])
      case Some(next) =>
        match download(next)
        case None => Run(None, [next], [radius'])
        case Some(status') =>
          var rest := Retry(attempt + 1, next, status', visited', radius', search, keyOf, download);
          Run(rest.result, [next] + rest.tried, [radius'] + rest.radii)
    else
      Run(if status == HttpOk then Some(WaveformResult(current, status)) else None, [], [])
  }

  /** What `generateWaveformResponse` does for an earthquake at (latitude, longitude). */
  function Download(latitude: real, longitude: real, stationService: int -> StationReply,
                    download: Station -> Option<int>, parseDouble: string -> Option<real>,
                    haversine: Haversine): Run
  {
    FirstSearchFindsStation(latitude, longitude, DefaultRadius, stationService, parseDouble, haversine);
    var first := NearestStation(latitude, longitude, DefaultRadius, {}, stationService, parseDouble, haversine).value;
    RunFrom(first, Searcher(latitude, longitude, stationService, parseDouble, haversine), KeyReader(), download)
  }

  /** The run after the first search found `first`: its download, then the retry loop. */
  function RunFrom(first: Station, search: Search, keyOf: Station -> string, download: Station -> Option<int>): Run
  {
    match download(first)
    case None => Run(None, [first], [DefaultRadius])
    case Some(status) =>
      var rest := Retry(1, first, status, {}, DefaultRadius, search, keyOf, download);
      Run(rest.result, [first] + rest.tried, [DefaultRadius] + rest.radii)
  }

  /** `generateWaveformResponse`: the first search and download, then up to three retries
    * while the data service answers 204, each excluding the station just tried and widening
    * the radius by 10 degrees; a failed send gives `null`. */
  method GenerateWaveformResponse(latitude: real, longitude: real, stationService: int -> StationReply,
                                  download: Station -> Option<int>, parseDouble: string -> Option<real>,
                                  haversine: Haversine)
    returns (result: Option<WaveformResult>)
    ensures result == Download(latitude, longitude, stationService, download, parseDouble, haversine).result
  {
    ghost var search := Searcher(latitude, longitude, stationService, parseDouble, haversine);
    var visitedStations: set<string> := {};
    var found := StrokeWithNearestStation(latitude, longitude, DefaultRadius, visitedStations,
                                          stationService, parseDouble, haversine);
    FirstSearchFindsStation(latitude, longitude, DefaultRadius, stationService, parseDouble, haversine);
    var currentStation := found.value;
    var response := download(currentStation);
    if response.None? {
      return None;
    }
    var status := response.value;
    var attempt := 1;
    var radius := DefaultRadius;
    while status == HttpNoContent && attempt <= MaxRetries
      invariant 1 <= attempt <= MaxRetries + 1
      invariant Retry(attempt, currentStation, status, visitedStations, radius, search, KeyReader(), download).result
                == Download(latitude, longitude, stationService, download, parseDouble, haversine).result
      decreases MaxRetries + 1 - attempt
    {
      var next;
      visitedStations, radius, next := WidenSearch(currentStation, visitedStations, radius, latitude, longitude,
                                                   stationService, parseDouble, haversine);
      if next.None? {
        break;
      }
      currentStation := next.value;
      response := download(currentStation);
      if response.None? {
        return None;
      }
      status := response.value;
      attempt := attempt + 1;
    }
    if status == HttpOk {
      return Some(WaveformResult(currentStation, status));
    }
    return None;
  }

  /** The start of a retry: the key of the station that answered 204 joins the visited keys,
    * the radius grows by 10 degrees, and the station search runs again. */
  method WidenSearch(currentStation: Station, visitedStations: set<string>, radius: int,
                     latitude: real, longitude: real, stationService: int -> StationReply,
                     parseDouble: string -> Option<real>, haversine: Haversine)
    returns (visited': set<string>, radius': int, next: Option<Station>)
    ensures visited' == visitedStations + {KeyReader()(currentStation)} && radius' == radius + RadiusStep
    ensures next == Searcher(latitude, longitude, stationService, parseDouble, haversine)(radius', visited')
  {
    var curStationKey := ExtractStationKey(Query(currentStation));
    QueryHasKey(currentStation);
    visited' := visitedStations + {curStationKey.value};
    radius' := radius + RadiusStep;
    next := StrokeWithNearestStation(latitude, longitude, radius', visited',
                                     stationService, parseDouble, haversine);
  }

  /** The searches of every run of the retry loop: at most one per attempt left, the radius
    * widened by 10 degrees per search, a data request per search that found a station, and
    * none unless the last request answered 204. */
  lemma {:induction false} RetryRadii(attempt: int, current: Station, status: int, visited: set<string>, radius: int,
                                      search: Search, keyOf: Station -> string, download: Station -> Option<int>)
    requires 1 <= attempt <= MaxRetries + 1
    ensures var run := Retry(attempt, current, status, visited, radius, search, keyOf, download);
            |run.radii| <= MaxRetries + 1 - attempt
            && (forall k :: 0 <= k < |run.radii| ==> run.radii[k] == radius + RadiusStep * (k + 1))
            && |run.radii| - 1 <= |run.tried| <= |run.radii|
            && (run.radii != [] ==> status == HttpNoContent)
    decreases MaxRetries + 1 - attempt
  {
    var run := Retry(attempt, current, status, visited, radius, search, keyOf, download);
    if status == HttpNoContent && attempt <= MaxRetries {
      var visited' := visited + {keyOf(current)};
      var radius' := radius + RadiusStep;
      var found := search(radius', visited');
      if found.Some? && download(found.value).Some? {
        var next := found.value;
        var status' := download(next).value;
        var rest := Retry(attempt + 1, next, status', visited', radius', search, keyOf, download);
        RetryRadii(attempt + 1, next, status', visited', radius', search, keyOf, download);
        assert run.radii == [radius'] + rest.radii && run.tried == [next] + rest.tried;
        forall k | 0 <= k < |run.radii| ensures run.radii[k] == radius + RadiusStep * (k + 1) {
          if k > 0 {
            assert run.radii[k] == rest.radii[k - 1];
          }
        }
      }
    }
  }

  /** The data requests of every run of the retry loop: 204 from every request but the last,
    * and a result exactly when the last request answered 200, naming the station it went to. */
  lemma {:induction false} RetryRequests(attempt: int, current: Station, status: int, visited: set<string>, radius: int,
                                         search: Search, keyOf: Station -> string, download: Station -> Option<int>)
    requires 1 <= attempt <= MaxRetries + 1
    requires download(current) == Some(status)
    ensures var run := Retry(attempt, current, status, visited, radius, search, keyOf, download);
            (forall k :: 0 <= k < |run.tried| - 1 ==> download(run.tried[k]) == Some(HttpNoContent))
            && (run.result.Some? ==>
                  run.result.value.status == HttpOk
                  && run.result.value.station == (if run.tried == [] then current else run.tried[|run.tried| - 1])
                  && download(run.result.value.station) == Some(HttpOk))
            && (run.tried != [] && run.result.None? ==> download(run.tried[|run.tried| - 1]) != Some(HttpOk))
    decreases MaxRetries + 1 - attempt
  {
    var run := Retry(attempt, current, status, visited, radius, search, keyOf, download);
    if status == HttpNoContent && attempt <= MaxRetries {
      var visited' := visited + {keyOf(current)};
      var radius' := radius + RadiusStep;
      var found := search(radius', visited');
      if found.Some? && download(found.value).Some? {
        var next := found.value;
        var status' := download(next).value;
        var rest := Retry(attempt + 1, next, status', visited', radius', search, keyOf, download);
        RetryRequests(attempt + 1, next, status', visited', radius', search, keyOf, download);
        RetryRadii(attempt + 1, next, status', visited', radius', search, keyOf, download);
        assert run == Run(rest.result, [next] + rest.tried, [radius'] + rest.radii);
        forall k | 0 <= k < |run.tried| - 1 ensures download(run.tried[k]) == Some(HttpNoContent) {
          if k > 0 {
            assert run.tried[k] == rest.tried[k - 1];
          } else {
            assert rest.radii != [];
          }
        }
      }
    }
  }

  /** What the downloader promises: at most four data requests, the first search at 20 degrees
    * and every retry 10 degrees wider, 204 from every request that led to a retry, and a result
    * only when the station it names answered 200 to the last request. */
  lemma RunShape(first: Station, search: Search, keyOf: Station -> string, download: Station -> Option<int>)
    ensures var run := RunFrom(first, search, keyOf, download);
            1 <= |run.tried| <= |run.radii| <= MaxRetries + 1
            && run.tried[0] == first
            && (forall k :: 0 <= k < |run.radii| ==> run.radii[k] == DefaultRadius + RadiusStep * k)
            && (forall k :: 0 <= k < |run.tried| - 1 ==> download(run.tried[k]) == Some(HttpNoContent))
            && (run.result.Some? ==>
                  run.result.value == WaveformResult(run.tried[|run.tried| - 1], HttpOk)
                  && download(run.result.value.station) == Some(HttpOk))
  {
    var run := RunFrom(first, search, keyOf, download);
    if download(first).Some? {
      var status := download(first).value;
      var rest := Retry(1, first, status, {}, DefaultRadius, search, keyOf, download);
      RetryRadii(1, first, status, {}, DefaultRadius, search, keyOf, download);
      RetryRequests(1, first, status, {}, DefaultRadius, search, keyOf, download);
      assert run == Run(rest.result, [first] + rest.tried, [DefaultRadius] + rest.radii);
      forall k | 0 <= k < |run.radii| ensures run.radii[k] == DefaultRadius + RadiusStep * k {
        if k > 0 {
          assert run.radii[k] == rest.radii[k - 1];
        }
      }
      forall k | 0 <= k < |run.tried| - 1 ensures download(run.tried[k]) == Some(HttpNoContent) {
        if k > 0 {
          assert run.tried[k] == rest.tried[k - 1];
        } else {
          assert rest.radii != [];
        }
      }
    }
  }

  /** A search that never returns a visited station. */
  ghost predicate AvoidsVisited(search: Search)
  {
    forall radius, visited :: search(radius, visited).Some? ==> Key(search(radius, visited).value) !in visited
  }

  /** The station search of `strokeWithNearestStation` never returns a visited station. */
  lemma SearcherAvoidsVisited(latitude: real, longitude: real, stationService: int -> StationReply,
                              parseDouble: string -> Option<real>, haversine: Haversine)
    ensures AvoidsVisited(Searcher(latitude, longitude, stationService, parseDouble, haversine))
  {
    var search := Searcher(latitude, longitude, stationService, parseDouble, haversine);
    forall radius, visited | search(radius, visited).Some?
      ensures Key(search(radius, visited).value) !in visited
    {
      NearestStationProperties(latitude, longitude, radius, visited, stationService, parseDouble, haversine);
    }
  }

  /** The retry loop never returns to a station: with plain codes, every station it requests
    * data from has a key not visited before, and the keys of the stations requested are
    * pairwise different and different from the one that answered 204. */
  lemma {:induction false} RetryNeverRevisits(attempt: int, current: Station, status: int, visited: set<string>,
                                              radius: int, search: Search, keyOf: Station -> string,
                                              download: Station -> Option<int>)
    requires 1 <= attempt <= MaxRetries + 1 && PlainCodes(current) && AvoidsVisited(search)
    requires forall s :: PlainCodes(s) ==> keyOf(s) == Key(s)
    requires AllPlain(Retry(attempt, current, status, visited, radius, search, keyOf, download).tried)
    ensures var run := Retry(attempt, current, status, visited, radius, search, keyOf, download);
            (forall k :: 0 <= k < |run.tried| ==> Key(run.tried[k]) !in visited && Key(run.tried[k]) != Key(current))
            && (forall j, k :: 0 <= j < k < |run.tried| ==> Key(run.tried[j]) != Key(run.tried[k]))
    decreases MaxRetries + 1 - attempt
  {
    var run := Retry(attempt, current, status, visited, radius, search, keyOf, download);
    if status == HttpNoContent && attempt <= MaxRetries {
      var visited' := visited + {Key(current)};
      var radius' := radius + RadiusStep;
      var found := search(radius', visited');
      if found.Some? && download(found.value).Some? {
        var next := found.value;
        var status' := download(next).value;
        var rest := Retry(attempt + 1, next, status', visited', radius', search, keyOf, download);
        assert run.tried == [next] + rest.tried;
        assert Key(next) !in visited';
        PlainTail(next, rest.tried, run.tried);
        RetryNeverRevisits(attempt + 1, next, status', visited', radius', search, keyOf, download);
        FreshKeysCons(next, rest.tried, visited, Key(current));
      }
    }
  }

  ghost predicate AllPlain(stations: seq<Station>)
  {
    forall k :: 0 <= k < |stations| ==> PlainCodes(stations[k])
  }

  lemma PlainTail(next: Station, rest: seq<Station>, tried: seq<Station>)
    requires tried == [next] + rest
    requires AllPlain(tried)
    ensures PlainCodes(next) && AllPlain(rest)
  {
    assert tried[0] == next;
    forall k | 0 <= k < |rest| ensures PlainCodes(rest[k]) {
      assert rest[k] == tried[k + 1];
    }
  }

  /** Prepending a station whose key is new keeps every key new and all keys distinct. */
  lemma FreshKeysCons(next: Station, rest: seq<Station>, visited: set<string>, currentKey: string)
    requires Key(next) !in visited + {currentKey}
    requires forall k :: 0 <= k < |rest| ==> Key(rest[k]) !in visited + {currentKey} && Key(rest[k]) != Key(next)
    requires forall j, k :: 0 <= j < k < |rest| ==> Key(rest[j]) != Key(rest[k])
    ensures var tried := [next] + rest;
            (forall k :: 0 <= k < |tried| ==> Key(tried[k]) !in visited && Key(tried[k]) != currentKey)
            && (forall j, k :: 0 <= j < k < |tried| ==> Key(tried[j]) != Key(tried[k]))
  {
    var tried := [next] + rest;
    forall k | 0 <= k < |tried| ensures Key(tried[k]) !in visited && Key(tried[k]) != currentKey {
      if k > 0 {
        assert tried[k] == rest[k - 1];
      }
    }
    forall j, k | 0 <= j < k < |tried| ensures Key(tried[j]) != Key(tried[k]) {
      assert tried[k] == rest[k - 1];
      if j > 0 {
        assert tried[j] == rest[j - 1];
      }
    }
  }
}
