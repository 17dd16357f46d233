/** `SeismicSignalExtractor`: turns the records of one station's miniSEED file into signal
  * blocks (`MSeedParser.getDataRecords`) and glues the blocks of each channel into one
  * continuous signal ordered by start time (`mergeByChannel`). */
module SeismicSignalExtractor {
  import opened Wrappers
  import opened JavaText
  import opened MiniSeed
  import opened StableSort
  import opened BlockSamples

  /** The `SampledSignal` record: amplitudes, sampling rate, start time, channel code and
    * the station's network, station code and coordinates. */
  datatype SampledSignal = SampledSignal(amplitudes: seq<real>, samplingRate: real,
                                         startTime: DateTime, channelCode: string,
                                         networkCode: string, stationCode: string,
                                         latitude: real, longitude: real)

  /** `amplitudesAsArray`: the amplitudes copied into a new array, in order. */
  method AmplitudesAsArray(s: SampledSignal) returns (arr: array<real>)
    ensures arr[..] == s.amplitudes
  {
    arr := new real[|s.amplitudes|];
    for pos := 0 to arr.Length
      invariant forall k :: 0 <= k < pos ==> arr[k] == s.amplitudes[k]
    {
      arr[pos] := s.amplitudes[pos];
    }
  }

  // ---------------------------------------------------------------- reading

  /** `convertToLocalSample`: the start time is parsed first, then the amplitudes decoded. */
  function ConvertSpec(rec: DataRecord, nc: string, sc: string, lat: real, lon: real)
    : Result<SampledSignal, ConvertError>
  {
    match TransformedTime(rec.startTime)
    case Err(e) => Err(BadStartTime(e))
    case Ok(time) =>
      var amplitudes :- DecodedAmplitudes(rec);
      Ok(SampledSignal(amplitudes, rec.sampleRate, time, rec.channel, nc, sc, lat, lon))
  }

  method ConvertToLocalSample(rec: DataRecord, nc: string, sc: string, lat: real, lon: real)
    returns (res: Result<SampledSignal, ConvertError>)
    ensures res == ConvertSpec(rec, nc, sc, lat, lon)
  {
    var time := TransformedTime(rec.startTime);
    if time.Err? {
      return Err(BadStartTime(time.error));
    }
    var rate := rec.sampleRate;
    var amplitudes := GenerateDecodingAmplitudes(rec);
    if amplitudes.Err? {
      return Err(amplitudes.error);
    }
    return Ok(SampledSignal(amplitudes.value, rate, time.value, rec.channel, nc, sc, lat, lon));
  }

  /** `getDataRecords`: the read loop over the file's successive read outcomes. */
  method GetDataRecords(stream: seq<ReadOutcome>, nc: string, sc: string, lat: real, lon: real)
    returns (res: Result<seq<SampledSignal>, ConvertError>)
    ensures res == ReadAll(stream, rec => ConvertSpec(rec, nc, sc, lat, lon))
  {
    ghost var convert := rec => ConvertSpec(rec, nc, sc, lat, lon);
    var signals: seq<SampledSignal> := [];
    var i := 0;
    assert stream[0..] == stream;
    if ReadAll(stream, convert).Ok? {
      assert [] + ReadAll(stream, convert).value == ReadAll(stream, convert).value;
    }
    while i < |stream|
      invariant 0 <= i <= |stream|
      invariant ReadAll(stream, convert) == Then(signals, ReadAll(stream[i..], convert))
    {
      assert stream[i..][1..] == stream[i + 1..];
      match stream[i]
      case EndOfFile =>
        assert ReadAll(stream[i..], convert) == Ok([]);
        assert signals + [] == signals;
        return Ok(signals);
      case Corrupt =>
        i := i + 1;
      case Record(rec) =>
        var block := ConvertToLocalSample(rec, nc, sc, lat, lon);
        if block.Err? {
          return Err(block.error);
        }
        ReadStep(stream, i, signals, convert);
        signals := signals + [block.value];
        i := i + 1;
    }
    assert signals + [] == signals;
    return Ok(signals);
  }

  // ---------------------------------------------------------------- merging

  /** `staKey.split("\\.")[1]` throws when the key has no second field. */
  datatype MergeError = MalformedStationKey | ReadFailed(reason: ConvertError)

  /** Sort key of a block: its start time. */
  function StartKey(b: SampledSignal): real
  {
    b.startTime.Key() as real
  }

  /** The blocks of channel `ch`, in read order. */
  function ChannelBlocks(blocks: seq<SampledSignal>, ch: string): (r: seq<SampledSignal>)
    ensures |r| <= |blocks|
    ensures forall i :: 0 <= i < |r| ==> r[i].channelCode == ch
  {
    if blocks == [] then []
    else
      var rest := ChannelBlocks(blocks[..|blocks| - 1], ch);
      if blocks[|blocks| - 1].channelCode == ch then rest + [blocks[|blocks| - 1]] else rest
  }

  /** The channel codes that occur among the blocks. */
  function Channels(blocks: seq<SampledSignal>): set<string>
  {
    set i | 0 <= i < |blocks| :: blocks[i].channelCode
  }

  /** The `grouped` map: channel code to its blocks in read order. */
  function Grouped(blocks: seq<SampledSignal>): map<string, seq<SampledSignal>>
  {
    map ch | ch in Channels(blocks) :: ChannelBlocks(blocks, ch)
  }

  function Amplitudes(s: SampledSignal): seq<real>
  {
    s.amplitudes
  }

  /** The merged signal of one channel: its blocks sorted by start time (stably), amplitudes
    * concatenated in that order, rate and start time of the earliest block. */
  function Merged(ch: string, blocks: seq<SampledSignal>, net: string, stn: string, lat: real, lon: real)
    : SampledSignal
    requires blocks != []
  {
    var sorted := SortBy(blocks, StartKey);
    SampledSignal(Concat(sorted, Amplitudes), sorted[0].samplingRate, sorted[0].startTime, ch, net, stn, lat, lon)
  }

  function MergeSpec(blocks: seq<SampledSignal>, net: string, stn: string, lat: real, lon: real)
    : map<string, SampledSignal>
  {
    map ch | ch in Channels(blocks) && ChannelBlocks(blocks, ch) != [] ::
      Merged(ch, ChannelBlocks(blocks, ch), net, stn, lat, lon)
  }

  /** The network and station codes of a `NET.STA` key. */
  function StationKeyParts(staKey: string): Option<(string, string)>
  {
    var parts := Split(staKey, '.');
    if |parts| < 2 then None else Some((parts[0], parts[1]))
  }

  /** What `mergeByChannel` returns for the outcomes of reading the station's file. */
  function MergeByChannelSpec(stream: seq<ReadOutcome>, staKey: string, lat: real, lon: real)
    : Result<map<string, SampledSignal>, MergeError>
  {
    match StationKeyParts(staKey)
    case None => Err(MalformedStationKey)
    case Some(codes) =>
      match ReadAll(stream, rec => ConvertSpec(rec, codes.0, codes.1, lat, lon))
      case Err(e) => Err(ReadFailed(e))
      case Ok(blocks) => Ok(MergeSpec(blocks, codes.0, codes.1, lat, lon))
  }

  lemma ChannelBlocksNonEmpty(blocks: seq<SampledSignal>, ch: string)
    requires ch in Channels(blocks)
    ensures ChannelBlocks(blocks, ch) != []
  {
    var i :| 0 <= i < |blocks| && blocks[i].channelCode == ch;
    ChannelBlocksContains(blocks, ch, i);
  }

  lemma {:induction false} ChannelBlocksContains(blocks: seq<SampledSignal>, ch: string, i: int)
    requires 0 <= i < |blocks| && blocks[i].channelCode == ch
    ensures blocks[i] in ChannelBlocks(blocks, ch)
  {
    if i < |blocks| - 1 {
      ChannelBlocksContains(blocks[..|blocks| - 1], ch, i);
    }
  }

  /** One grouping step: appending a block extends its channel's list and no other. */
  lemma GroupedAppend(blocks: seq<SampledSignal>, b: SampledSignal)
    ensures Grouped(blocks + [b]) ==
            Grouped(blocks)[b.channelCode := (if b.channelCode in Grouped(blocks)
                                              then Grouped(blocks)[b.channelCode] else []) + [b]]
  {
    var s := blocks + [b];
    assert s[..|s| - 1] == blocks;
    forall c | c in Channels(s) ensures c in Channels(blocks) + {b.channelCode} {
      var i :| 0 <= i < |s| && s[i].channelCode == c;
      if i < |blocks| {
        assert blocks[i].channelCode == c;
      }
    }
    forall c | c in Channels(blocks) ensures c in Channels(s) {
      var i :| 0 <= i < |blocks| && blocks[i].channelCode == c;
      assert s[i].channelCode == c;
    }
    assert s[|s| - 1].channelCode == b.channelCode;
    assert Channels(s) == Channels(blocks) + {b.channelCode};
    forall ch | ch in Channels(blocks) && ch != b.channelCode
      ensures ChannelBlocks(s, ch) == ChannelBlocks(blocks, ch)
    {
    }
    if b.channelCode !in Channels(blocks) {
      ChannelBlocksAbsent(blocks, b.channelCode);
    }
  }

  lemma {:induction false} ChannelBlocksAbsent(blocks: seq<SampledSignal>, ch: string)
    requires ch !in Channels(blocks)
    ensures ChannelBlocks(blocks, ch) == []
  {
    if blocks != [] {
      var init := blocks[..|blocks| - 1];
      assert Channels(init) <= Channels(blocks) by {
        forall c | c in Channels(init) ensures c in Channels(blocks) {
          var i :| 0 <= i < |init| && init[i].channelCode == c;
          assert blocks[i].channelCode == c;
        }
      }
      ChannelBlocksAbsent(init, ch);
    }
  }

  /** The grouping loop of `mergeByChannel`. */
  method GroupByChannel(blocks: seq<SampledSignal>) returns (grouped: map<string, seq<SampledSignal>>)
    ensures grouped == Grouped(blocks)
  {
    grouped := map[];
    for i := 0 to |blocks|
      invariant grouped == Grouped(blocks[..i])
    {
      var block := blocks[i];
      var chnl := block.channelCode;
      if chnl !in grouped {
        grouped := grouped[chnl := []];
      }
      GroupedAppend(blocks[..i], block);
      assert blocks[..i + 1] == blocks[..i] + [block];
      grouped := grouped[chnl := grouped[chnl] + [block]];
    }
    assert blocks[..|blocks|] == blocks;
  }

  /** The `addAll` loop: the amplitudes of the sorted blocks, one block after another. */
  method ConcatAmplitudes(blocks: seq<SampledSignal>) returns (merged: seq<real>)
    ensures merged == Concat(blocks, Amplitudes)
  {
    merged := [];
    for i := 0 to |blocks|
      invariant merged == Concat(blocks[..i], Amplitudes)
    {
      assert blocks[..i + 1][..i] == blocks[..i];
      merged := merged + blocks[i].amplitudes;
    }
    assert blocks[..|blocks|] == blocks;
  }

  /** `mergeByChannel`. */
  method MergeByChannel(stream: seq<ReadOutcome>, staKey: string, lat: real, lon: real)
    returns (res: Result<map<string, SampledSignal>, MergeError>)
    ensures res == MergeByChannelSpec(stream, staKey, lat, lon)
  {
    var parts := Split(staKey, '.');
    if |parts| < 2 {
      return Err(MalformedStationKey);
    }
    var netCode, stnCode := parts[0], parts[1];
    var allBlocks := GetDataRecords(stream, netCode, stnCode, lat, lon);
    if allBlocks.Err? {
      return Err(ReadFailed(allBlocks.error));
    }
    var blocks := allBlocks.value;
    var grouped := GroupByChannel(blocks);
    var mergedSignals := MergeGroups(blocks, grouped, netCode, stnCode, lat, lon);
    return Ok(mergedSignals);
  }

  /** One channel of `mergeByChannel`: sort its blocks by start time, concatenate the amplitudes,
    * take rate and start time from the earliest block. */
  method MergeChannel(ch: string, group: seq<SampledSignal>, netCode: string, stnCode: string,
                      lat: real, lon: real)
    returns (merged: SampledSignal)
    requires group != []
    ensures merged == Merged(ch, group, netCode, stnCode, lat, lon)
  {
    var sorted := SortBy(group, StartKey);
    var mergedAmpls := ConcatAmplitudes(sorted);
    merged := SampledSignal(mergedAmpls, sorted[0].samplingRate, sorted[0].startTime, ch,
                            netCode, stnCode, lat, lon);
  }

  /** The merging loop of `mergeByChannel`, one channel of `grouped` at a time. */
  method MergeGroups(blocks: seq<SampledSignal>, grouped: map<string, seq<SampledSignal>>,
                     netCode: string, stnCode: string, lat: real, lon: real)
    returns (mergedSignals: map<string, SampledSignal>)
    requires grouped == Grouped(blocks)
    ensures mergedSignals == MergeSpec(blocks, netCode, stnCode, lat, lon)
  {
    forall c | c in grouped ensures grouped[c] != [] {
      ChannelBlocksNonEmpty(blocks, c);
    }
    mergedSignals := MergeEach(grouped, netCode, stnCode, lat, lon);
    MergeSpecOfGrouped(blocks, grouped, mergedSignals, netCode, stnCode, lat, lon);
  }

  /** Every channel held in `merged` maps to the merge of its group. */
  ghost predicate AllMerged(merged: map<string, SampledSignal>, grouped: map<string, seq<SampledSignal>>,
                            netCode: string, stnCode: string, lat: real, lon: real)
    requires forall c :: c in grouped ==> grouped[c] != []
  {
    forall ch :: ch in merged && ch in grouped ==>
      merged[ch] == Merged(ch, grouped[ch], netCode, stnCode, lat, lon)
  }

  /** The loop itself: every channel's blocks merged into one signal under that channel. */
  method MergeEach(grouped: map<string, seq<SampledSignal>>,
                   netCode: string, stnCode: string, lat: real, lon: real)
    returns (mergedSignals: map<string, SampledSignal>)
    requires forall c :: c in grouped ==> grouped[c] != []
    ensures mergedSignals.Keys == grouped.Keys
    ensures forall ch :: ch in mergedSignals ==>
              mergedSignals[ch] == Merged(ch, grouped[ch], netCode, stnCode, lat, lon)
  {
    mergedSignals := map[];
    var todo := grouped.Keys;
    while todo != {}
      invariant todo <= grouped.Keys
      invariant mergedSignals.Keys == grouped.Keys - todo
      invariant AllMerged(mergedSignals, grouped, netCode, stnCode, lat, lon)
      decreases |todo|
    {
      mergedSignals, todo := MergeNext(grouped, mergedSignals, todo, netCode, stnCode, lat, lon);
    }
  }

  /** One pass of the loop: merges some channel still to do. */
  method MergeNext(grouped: map<string, seq<SampledSignal>>, mergedSignals: map<string, SampledSignal>,
                   todo: set<string>, netCode: string, stnCode: string, lat: real, lon: real)
    returns (mergedSignals': map<string, SampledSignal>, todo': set<string>)
    requires forall c :: c in grouped ==> grouped[c] != []
    requires todo != {} && todo <= grouped.Keys && mergedSignals.Keys == grouped.Keys - todo
    requires AllMerged(mergedSignals, grouped, netCode, stnCode, lat, lon)
    ensures todo' <= grouped.Keys && |todo'| < |todo| && mergedSignals'.Keys == grouped.Keys - todo'
    ensures AllMerged(mergedSignals', grouped, netCode, stnCode, lat, lon)
  {
    var channel :| channel in todo;
    var m := MergeChannel(channel, grouped[channel], netCode, stnCode, lat, lon);
    mergedSignals' := mergedSignals[channel := m];
    todo' := todo - {channel};
    assert |todo'| == |todo| - 1;
    forall ch | ch in mergedSignals' && ch in grouped
      ensures mergedSignals'[ch] == Merged(ch, grouped[ch], netCode, stnCode, lat, lon)
    {
      if ch != channel {
        assert mergedSignals'[ch] == mergedSignals[ch];
      }
    }
  }

  lemma MergeSpecOfGrouped(blocks: seq<SampledSignal>, grouped: map<string, seq<SampledSignal>>,
                           m: map<string, SampledSignal>,
                           netCode: string, stnCode: string, lat: real, lon: real)
    requires grouped == Grouped(blocks)
    requires forall c :: c in grouped ==> grouped[c] != []
    requires m.Keys == grouped.Keys
    requires forall ch :: ch in m ==> m[ch] == Merged(ch, grouped[ch], netCode, stnCode, lat, lon)
    ensures m == MergeSpec(blocks, netCode, stnCode, lat, lon)
  {
    var spec := MergeSpec(blocks, netCode, stnCode, lat, lon);
    MergeSpecKeys(blocks, netCode, stnCode, lat, lon);
    assert spec.Keys == m.Keys;
    forall ch | ch in m ensures m[ch] == spec[ch] {
      assert ch in Channels(blocks);
      var g := ChannelBlocks(blocks, ch);
      assert grouped[ch] == g;
      assert spec[ch] == Merged(ch, g, netCode, stnCode, lat, lon);
    }
    MapExtensional(m, spec);
  }

  lemma MapExtensional<K, V>(m: map<K, V>, n: map<K, V>)
    requires m.Keys == n.Keys
    requires forall k :: k in m ==> m[k] == n[k]
    ensures m == n
  {
  }

  lemma MergeSpecKeys(blocks: seq<SampledSignal>, netCode: string, stnCode: string, lat: real, lon: real)
    ensures MergeSpec(blocks, netCode, stnCode, lat, lon).Keys == Channels(blocks)
  {
    forall c | c in Channels(blocks) ensures ChannelBlocks(blocks, c) != [] {
      ChannelBlocksNonEmpty(blocks, c);
    }
  }

  // ---------------------------------------------------------------- properties

  /** One merged signal per distinct channel code; each holds its channel's blocks in
    * ascending start time, ties in read order, every block exactly once, with the rate and
    * start time of the earliest (first) block and the key's network and station codes, and
    * as many amplitudes as the channel's blocks hold together. */
  lemma MergeByChannelMeaning(blocks: seq<SampledSignal>, net: string, stn: string, lat: real, lon: real, ch: string)
    requires ch in Channels(blocks)
    ensures MergeSpec(blocks, net, stn, lat, lon).Keys == Channels(blocks)
    ensures ch in MergeSpec(blocks, net, stn, lat, lon)
    ensures var m := MergeSpec(blocks, net, stn, lat, lon)[ch];
            var own := ChannelBlocks(blocks, ch);
            var sorted := SortBy(own, StartKey);
            own != [] && m.amplitudes == Concat(sorted, Amplitudes)
            && |m.amplitudes| == TotalLength(own, Amplitudes)
            && SortedBy(sorted, StartKey) && multiset(sorted) == multiset(own)
            && (forall k :: WithKey(sorted, StartKey, k) == WithKey(own, StartKey, k))
            && m.samplingRate == own[FirstMinIndex(own, StartKey)].samplingRate
            && m.startTime == own[FirstMinIndex(own, StartKey)].startTime
            && m.channelCode == ch && m.networkCode == net && m.stationCode == stn
            && m.latitude == lat && m.longitude == lon
  {
    var own := ChannelBlocks(blocks, ch);
    forall c | c in Channels(blocks) ensures ChannelBlocks(blocks, c) != [] {
      ChannelBlocksNonEmpty(blocks, c);
    }
    SortBySorted(own, StartKey);
    SortByHead(own, StartKey);
    forall k ensures WithKey(SortBy(own, StartKey), StartKey, k) == WithKey(own, StartKey, k) {
      SortByStable(own, StartKey, k);
    }
    ConcatLength(SortBy(own, StartKey), Amplitudes);
    TotalLengthPermutation(SortBy(own, StartKey), own, Amplitudes);
  }
}
