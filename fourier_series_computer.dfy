/** `FourierSeriesComputer`: the older per-record reader. Its `MSeedParser` helpers parse the
  * start time, decode the amplitudes and run the read loop exactly as `SeismicSignalExtractor`
  * does, so both use the same `MiniSeed` definitions; only the signal record is smaller. */
module FourierSeriesComputer {
  import opened Wrappers
  import opened MiniSeed
  import SeismicSignalExtractor

  /** The `SampledSignal` record: amplitudes, sampling rate and start time only. */
  datatype SampledSignal = SampledSignal(amplitudes: seq<real>, samplingRate: real, startTime: DateTime)

  /** `asArray`: the amplitudes copied into a new array, in order. */
  method AsArray(s: SampledSignal) returns (arr: array<real>)
    ensures arr[..] == s.amplitudes
  {
    arr := new real[|s.amplitudes|];
    for pos := 0 to arr.Length
      invariant forall k :: 0 <= k < pos ==> arr[k] == s.amplitudes[k]
    {
      arr[pos] := s.amplitudes[pos];
    }
  }

  /** `convertToLocalSample`: start time first, then the amplitudes. */
  function ConvertSpec(rec: DataRecord): Result<SampledSignal, ConvertError>
  {
    match TransformedTime(rec.startTime)
    case Err(e) => Err(BadStartTime(e))
    case Ok(time) =>
      var amplitudes :- DecodedAmplitudes(rec);
      Ok(SampledSignal(amplitudes, rec.sampleRate, time))
  }

  method ConvertToLocalSample(rec: DataRecord) returns (res: Result<SampledSignal, ConvertError>)
    ensures res == ConvertSpec(rec)
  {
    var time := TransformedTime(rec.startTime);
    if time.Err? {
      return Err(BadStartTime(time.error));
    }
    var rate := rec.sampleRate;
    var amplitudes := GenerateDecodingAmplitudes(rec);
    if amplitudes.Err? {
      return Err(amplitudes.error);
    }
    return Ok(SampledSignal(amplitudes.value, rate, time.value));
  }

  /** `getDataRecords`: converted records in read order; corrupt records are skipped and the
    * end of the file stops the loop; a conversion error ends the whole read. */
  method GetDataRecords(stream: seq<ReadOutcome>) returns (res: Result<seq<SampledSignal>, ConvertError>)
    ensures res == ReadAll(stream, ConvertSpec)
  {
    var signals: seq<SampledSignal> := [];
    var i := 0;
    assert stream[0..] == stream;
    if ReadAll(stream, ConvertSpec).Ok? {
      assert [] + ReadAll(stream, ConvertSpec).value == ReadAll(stream, ConvertSpec).value;
    }
    while i < |stream|
      invariant 0 <= i <= |stream|
      invariant ReadAll(stream, ConvertSpec) == Then(signals, ReadAll(stream[i..], ConvertSpec))
    {
      assert stream[i..][1..] == stream[i + 1..];
      match stream[i]
      case EndOfFile =>
        assert ReadAll(stream[i..], ConvertSpec) == Ok([]);
        assert signals + [] == signals;
        return Ok(signals);
      case Corrupt =>
        i := i + 1;
      case Record(rec) =>
        var block := ConvertToLocalSample(rec);
        if block.Err? {
          return Err(block.error);
        }
        ReadStep(stream, i, signals, ConvertSpec);
        signals := signals + [block.value];
        i := i + 1;
    }
    assert signals + [] == signals;
    return Ok(signals);
  }

  /** The two readers agree record by record: both fail on the same records with the same
    * error, and otherwise yield the same amplitudes, rate and start time. */
  lemma ConvertAgrees(rec: DataRecord, nc: string, sc: string, lat: real, lon: real)
    ensures var mine := ConvertSpec(rec);
            var theirs := SeismicSignalExtractor.ConvertSpec(rec, nc, sc, lat, lon);
            (mine.Ok? <==> theirs.Ok?) &&
            (mine.Err? ==> mine.error == theirs.error) &&
            (mine.Ok? ==> mine.value.amplitudes == theirs.value.amplitudes &&
                          mine.value.samplingRate == theirs.value.samplingRate &&
                          mine.value.startTime == theirs.value.startTime)
  {
    var time := TransformedTime(rec.startTime);
    var decoded := DecodedAmplitudes(rec);
    if time.Err? {
      assert ConvertSpec(rec) == Err(BadStartTime(time.error));
    } else if decoded.Err? {
      assert ConvertSpec(rec) == Err(decoded.error);
    } else {
      assert ConvertSpec(rec) == Ok(SampledSignal(decoded.value, rec.sampleRate, time.value));
    }
  }
}
