/** The per-record miniSEED helpers shared, line for line, by `SeismicSignalExtractor` and
  * `FourierSeriesComputer`: parsing the record start time (the SEED BTIME form
  * `YYYY,DDD,HH:MM:SS.ffff`, SEED Reference Manual v2.4, chapter 3), normalising its fraction
  * to nanoseconds, dispatching on the encoding format of Blockette 1000 (field 3), widening the
  * decoded samples to doubles, and the read loop that skips corrupt records and stops at the
  * end of the file. Reading and decompressing a record belong to the seisFile library: a
  * record arrives already read, with its decompressed samples. */
module MiniSeed {
  import opened Wrappers
  import opened JavaText

  // ---------------------------------------------------------------- date and time

  /** A `LocalDateTime` built as `LocalDateTime.of(LocalDate.ofYearDay(year, dayOfYear),
    * LocalTime.of(hour, minute, second, nano))`. */
  datatype DateTime = DateTime(year: int, dayOfYear: int, hour: int, minute: int, second: int, nano: int)
  {
    /** What `ofYearDay` and `LocalTime.of` accept (a year of at most four characters is
      * always in range). */
    predicate Valid()
    {
      1 <= dayOfYear <= 366 && (dayOfYear == 366 ==> IsLeapYear(year))
      && 0 <= hour < 24 && 0 <= minute < 60 && 0 <= second < 60 && 0 <= nano < 1_000_000_000
    }

    /** Chronological order of valid values (see `KeyOrder`). */
    function Key(): int
    {
      ((((year * 367 + dayOfYear) * 24 + hour) * 60 + minute) * 60 + second) * 1_000_000_000 + nano
    }

    /** `compareTo < 0` of two `LocalDateTime`s: field by field, most significant first. */
    predicate Before(other: DateTime)
    {
      if year != other.year then year < other.year
      else if dayOfYear != other.dayOfYear then dayOfYear < other.dayOfYear
      else if hour != other.hour then hour < other.hour
      else if minute != other.minute then minute < other.minute
      else if second != other.second then second < other.second
      else nano < other.nano
    }
  }

  /** The proleptic Gregorian leap-year rule of `IsoChronology.isLeapYear`. */
  predicate IsLeapYear(year: int)
  {
    year % 4 == 0 && (year % 100 != 0 || year % 400 == 0)
  }

  /** A mixed-radix digit below its radix keeps the order of the more significant part. */
  lemma LexStep(a1: int, b1: int, a2: int, b2: int, m: int)
    requires 0 <= b1 < m && 0 <= b2 < m
    ensures a1 * m + b1 < a2 * m + b2 <==> a1 < a2 || (a1 == a2 && b1 < b2)
    ensures a1 * m + b1 == a2 * m + b2 <==> a1 == a2 && b1 == b2
  {
    if a1 < a2 {
      MulMonotone(a1 + 1, a2, m);
      assert (a1 + 1) * m == a1 * m + m;
    } else if a2 < a1 {
      MulMonotone(a2 + 1, a1, m);
      assert (a2 + 1) * m == a2 * m + m;
    }
  }

  lemma MulMonotone(x: int, y: int, m: int)
    requires x <= y && m >= 0
    ensures x * m <= y * m
  {
    var k := y - x;
    assert y * m == x * m + k * m;
  }

  /** The key orders valid date-times exactly as `LocalDateTime.compareTo`. */
  lemma KeyOrder(a: DateTime, b: DateTime)
    requires a.Valid() && b.Valid()
    ensures a.Key() < b.Key() <==> a.Before(b)
    ensures a.Key() == b.Key() <==> a == b
  {
    var ka := a.year * 367 + a.dayOfYear;
    var kb := b.year * 367 + b.dayOfYear;
    LexStep(a.year, a.dayOfYear, b.year, b.dayOfYear, 367);
    LexStep(ka, a.hour, kb, b.hour, 24);
    ka, kb := ka * 24 + a.hour, kb * 24 + b.hour;
    LexStep(ka, a.minute, kb, b.minute, 60);
    ka, kb := ka * 60 + a.minute, kb * 60 + b.minute;
    LexStep(ka, a.second, kb, b.second, 60);
    ka, kb := ka * 60 + a.second, kb * 60 + b.second;
    LexStep(ka, a.nano, kb, b.nano, 1_000_000_000);
  }

  // ---------------------------------------------------------------- start-time parsing

  /** The exceptions `transformedTime` can raise: a string too short for a field
    * (StringIndexOutOfBoundsException), a field that is not a number (NumberFormatException)
    * and a date or time out of range (DateTimeException). */
  datatype TimeError = IndexOutOfBounds | NumberFormat | InvalidDateTime

  /** `Integer.parseInt(t.substring(lo, hi))`. */
  function FieldAt(t: string, lo: nat, hi: nat): (r: Result<int, TimeError>)
    requires lo <= hi
    ensures r.Ok? <==> hi <= |t| && ParseInt(t[lo..hi]).Some?
  {
    if hi > |t| then Err(IndexOutOfBounds)
    else match ParseInt(t[lo..hi])
      case None => Err(NumberFormat)
      case Some(v) => Ok(v)
  }

  /** `transformedTime`: year, day of year, hour, minute and second from the character ranges
    * [0,4), [5,8), [9,11), [12,14) and [15,17) of the trimmed string, in that order, then the
    * nanoseconds of the fraction. */
  function TransformedTime(raw: string): Result<DateTime, TimeError>
  {
    var t := Trim(raw);
    var year :- FieldAt(t, 0, 4);
    var day :- FieldAt(t, 5, 8);
    var hours :- FieldAt(t, 9, 11);
    var minutes :- FieldAt(t, 12, 14);
    var seconds :- FieldAt(t, 15, 17);
    var dt := DateTime(year, day, hours, minutes, seconds, ExtractNanos(t));
    if dt.Valid() then Ok(dt) else Err(InvalidDateTime)
  }

  /** The digits after a '.' found at index 17 or later, everything else dropped; empty
    * when there is no such '.'. */
  function Fraction(t: string): (r: string)
    ensures AllAsciiDigits(r)
  {
    var dot := IndexOf(t, '.', 17);
    if dot == -1 then "" else KeepAsciiDigits(t[dot + 1..])
  }

  function Zeros(n: nat): (r: string)
    ensures |r| == n && AllAsciiDigits(r)
  {
    if n == 0 then "" else Zeros(n - 1) + "0"
  }

  /** The fraction cut to nine digits, or right-padded with zeros to nine. */
  function NineDigits(frac: string): (r: string)
    requires AllAsciiDigits(frac)
    ensures |r| == 9 && AllAsciiDigits(r)
  {
    if |frac| > 9 then frac[..9] else frac + Zeros(9 - |frac|)
  }

  /** `extractNanos` on the trimmed start time. */
  function ExtractNanos(t: string): int
  {
    var frac := Fraction(t);
    if frac == "" then 0
    else
      match ParseInt(NineDigits(frac))
      case Some(v) => v
      case None => 0 // never taken: nine digits always parse (ParseDigits)
  }

  /** `Integer.parseInt` of unsigned digits is their value while it fits in an int. */
  lemma ParseDigits(s: string)
    requires s != [] && AllAsciiDigits(s) && Pow10(|s|) <= IntMax
    ensures ParseInt(s) == Some(DigitsValue(s))
  {
  }

  lemma {:induction false} DigitsValueZeros(s: string, n: nat)
    requires AllAsciiDigits(s)
    ensures AllAsciiDigits(s + Zeros(n))
    ensures DigitsValue(s + Zeros(n)) == DigitsValue(s) * Pow10(n)
  {
    if n > 0 {
      DigitsValueZeros(s, n - 1);
      var u := s + Zeros(n - 1);
      assert s + Zeros(n) == u + "0";
      DigitsValueAppendZero(u);
      TimesTenAssoc(DigitsValue(s), Pow10(n - 1));
    } else {
      assert s + Zeros(n) == s;
    }
  }

  /** Appending a '0' multiplies the value by ten. */
  lemma DigitsValueAppendZero(u: string)
    requires AllAsciiDigits(u)
    ensures AllAsciiDigits(u + "0")
    ensures DigitsValue(u + "0") == DigitsValue(u) * 10
  {
    assert (u + "0")[..|u|] == u;
  }

  lemma TimesTenAssoc(v: int, p: int)
    ensures (v * p) * 10 == v * (10 * p)
  {
  }

  /** The nanoseconds lie in [0, 10^9), and are 0 when there is no fraction. */
  lemma ExtractNanosRange(t: string)
    ensures 0 <= ExtractNanos(t) < 1_000_000_000
    ensures Fraction(t) == "" ==> ExtractNanos(t) == 0
  {
    var frac := Fraction(t);
    if frac != "" {
      ParseDigits(NineDigits(frac));
    }
  }

  /** The fraction counts in units of 10^-k s for k digits: more than nine digits are cut to
    * nine, fewer are scaled up, so ".5" is 500000000 ns. */
  lemma ExtractNanosScaling(t: string)
    requires Fraction(t) != ""
    ensures var frac := Fraction(t);
            ExtractNanos(t) == if |frac| > 9 then DigitsValue(frac[..9])
                               else DigitsValue(frac) * Pow10(9 - |frac|)
  {
    var frac := Fraction(t);
    ParseDigits(NineDigits(frac));
    if |frac| <= 9 {
      DigitsValueZeros(frac, 9 - |frac|);
    }
  }

  // ---------------------------------------------------------------- formatting (for the round trip)

  function DigitChar(d: int): char
    requires 0 <= d < 10
  {
    (d + '0' as int) as char
  }

  /** The `k` low decimal digits of `n`, zero-padded. */
  function Digits(n: nat, k: nat): (r: string)
    ensures |r| == k && AllAsciiDigits(r)
  {
    if k == 0 then "" else Digits(n / 10, k - 1) + [DigitChar(n % 10)]
  }

  lemma {:induction false} DigitsValueOfDigits(n: nat, k: nat)
    requires n < Pow10(k)
    ensures DigitsValue(Digits(n, k)) == n
  {
    if k > 0 {
      DigitsValueOfDigits(n / 10, k - 1);
      var r := Digits(n, k);
      assert r[..|r| - 1] == Digits(n / 10, k - 1);
    }
  }

  /** A start time as seisFile prints it: `YYYY,DDD,HH:MM:SS.ffff`, the fraction in units of
    * 100 microseconds. */
  function FormatBtime(dt: DateTime, tenthMillis: nat): string
    requires 0 <= dt.year < 10000 && dt.Valid()
  {
    Digits(dt.year, 4) + "," + Digits(dt.dayOfYear, 3) + "," + Digits(dt.hour, 2) + ":"
    + Digits(dt.minute, 2) + ":" + Digits(dt.second, 2) + "." + Digits(tenthMillis, 4)
  }

  lemma KeepAllDigits(s: string)
    requires AllAsciiDigits(s)
    ensures KeepAsciiDigits(s) == s
  {
    if s != [] {
      KeepAllDigits(s[..|s| - 1]);
      assert s == s[..|s| - 1] + [s[|s| - 1]];
    }
  }

  lemma TrimKeeps(s: string)
    requires s != [] && !IsTrimmable(s[0]) && !IsTrimmable(s[|s| - 1])
    ensures Trim(s) == s
  {
  }

  lemma FieldOfDigits(t: string, lo: nat, n: nat, k: nat)
    requires 1 <= k <= 4 && n < Pow10(k) && lo + k <= |t| && t[lo..lo + k] == Digits(n, k)
    ensures FieldAt(t, lo, lo + k) == Ok(n)
  {
    var d := Digits(n, k);
    DigitsValueOfDigits(n, k);
    assert Pow10(k) <= IntMax by { Pow10AtMostFour(k); }
    ParseDigits(d);
    assert t[lo..lo + k] == d;
  }

  lemma Pow10AtMostFour(k: nat)
    requires k <= 4
    ensures Pow10(k) <= 10000
  {
    assert Pow10(1) == 10;
    assert Pow10(2) == 100;
    assert Pow10(3) == 1000;
    assert Pow10(4) == 10000;
  }

  /** Where the fields of a printed start time sit. */
  lemma FormatBtimeLayout(dt: DateTime, tenthMillis: nat)
    requires 0 <= dt.year < 10000 && dt.Valid()
    ensures var s := FormatBtime(dt, tenthMillis);
            |s| == 22 && s[..4] == Digits(dt.year, 4) && s[5..8] == Digits(dt.dayOfYear, 3)
            && s[9..11] == Digits(dt.hour, 2) && s[12..14] == Digits(dt.minute, 2)
            && s[15..17] == Digits(dt.second, 2) && s[17] == '.' && s[18..] == Digits(tenthMillis, 4)
  {
  }

  /** Parsing a printed start time gives back the date-time it printed: every field at its
    * fixed position, and the four-digit fraction scaled to nanoseconds. */
  lemma TransformedTimeRoundTrip(dt: DateTime, tenthMillis: nat)
    requires 0 <= dt.year < 10000 && dt.Valid() && tenthMillis < 10000
    requires dt.nano == tenthMillis * 100000
    ensures TransformedTime(FormatBtime(dt, tenthMillis)) == Ok(dt)
  {
    var s := FormatBtime(dt, tenthMillis);
    FormatBtimeLayout(dt, tenthMillis);
    assert s[0] == s[..4][0] && s[21] == s[18..][3];
    TrimKeeps(s);
    FieldOfDigits(s, 0, dt.year, 4);
    FieldOfDigits(s, 5, dt.dayOfYear, 3);
    FieldOfDigits(s, 9, dt.hour, 2);
    FieldOfDigits(s, 12, dt.minute, 2);
    FieldOfDigits(s, 15, dt.second, 2);
    FractionOfFormat(s, Digits(tenthMillis, 4));
    ExtractNanosScaling(s);
    DigitsValueOfDigits(tenthMillis, 4);
    assert Pow10(9 - 4) == 100000;
    assert ExtractNanos(s) == DigitsValue(Digits(tenthMillis, 4)) * 100000;
  }

  lemma FractionOfFormat(s: string, frac: string)
    requires |s| >= 18 && s[17] == '.' && s[18..] == frac && AllAsciiDigits(frac)
    ensures Fraction(s) == frac
  {
    assert IndexOf(s, '.', 17) == 17;
    KeepAllDigits(frac);
  }

  // ---------------------------------------------------------------- records and decoding

  /** A miniSEED data record as seisFile hands it over: channel identifier, start-time
    * string, sample rate, the encoding format of its Blockette 1000 (`None` when it has
    * none) and its decompressed samples as ints and as doubles. */
  datatype DataRecord = DataRecord(channel: string, startTime: string, sampleRate: real,
                                   encoding: Option<int>, intSamples: seq<int>,
                                   doubleSamples: seq<real>)

  /** One `DataRecord.read`: a record, a corrupt record (SeedFormatException), or the end of
    * the file (EOFException). */
  datatype ReadOutcome = Record(rec: DataRecord) | Corrupt | EndOfFile

  /** The exceptions converting a record can raise. */
  datatype ConvertError = BadStartTime(reason: TimeError) | UnsupportedEncoding

  const Int16: int := 1
  const Int32: int := 3
  const Float32: int := 4
  const Float64: int := 5
  const Steim1: int := 10
  const Steim2: int := 11

  /** The integer encodings of the dispatch; a record without Blockette 1000 is read as
    * integers too. */
  predicate IsIntegerEncoding(e: Option<int>)
  {
    e.None? || e.value in {Int16, Int32, Steim1, Steim2}
  }

  predicate IsFloatEncoding(e: Option<int>)
  {
    e.Some? && e.value in {Float32, Float64}
  }

  function Widened(ints: seq<int>): (r: seq<real>)
    ensures |r| == |ints|
  {
    seq(|ints|, i requires 0 <= i < |ints| => ints[i] as real)
  }

  /** The amplitudes `generateDecodingAmplitudes` returns. */
  function DecodedAmplitudes(rec: DataRecord): Result<seq<real>, ConvertError>
  {
    if IsIntegerEncoding(rec.encoding) then Ok(Widened(rec.intSamples))
    else if IsFloatEncoding(rec.encoding) then Ok(rec.doubleSamples)
    else Err(UnsupportedEncoding)
  }

  /** The encoding dispatch: codes 1, 3, 10, 11 or no Blockette 1000 give the integer
    * samples widened, 4 and 5 the double samples, and every other code the exception. */
  lemma DecodingDispatch(rec: DataRecord)
    ensures DecodedAmplitudes(rec).Err? <==> rec.encoding.Some? && rec.encoding.value !in {1, 3, 4, 5, 10, 11}
    ensures rec.encoding.None? || rec.encoding.value in {1, 3, 10, 11} ==>
              DecodedAmplitudes(rec) == Ok(Widened(rec.intSamples))
    ensures rec.encoding.Some? && rec.encoding.value in {4, 5} ==>
              DecodedAmplitudes(rec) == Ok(rec.doubleSamples)
  {
  }

  /** `castToDouble`: each int widened, in order. */
  method CastToDouble(ints: seq<int>) returns (d: seq<real>)
    ensures |d| == |ints|
    ensures forall i :: 0 <= i < |ints| ==> d[i] == ints[i] as real
  {
    d := [];
    for i := 0 to |ints|
      invariant |d| == i && forall k :: 0 <= k < i ==> d[k] == ints[k] as real
    {
      d := d + [ints[i] as real];
    }
  }

  /** `translateToList`: the doubles copied, in order. */
  method TranslateToList(dls: seq<real>) returns (d: seq<real>)
    ensures d == dls
  {
    d := [];
    for i := 0 to |dls|
      invariant d == dls[..i]
    {
      d := d + [dls[i]];
    }
  }

  /** `generateDecodingAmplitudes`. */
  method GenerateDecodingAmplitudes(rec: DataRecord) returns (res: Result<seq<real>, ConvertError>)
    ensures res == DecodedAmplitudes(rec)
  {
    if rec.encoding.None? {
      var d := CastToDouble(rec.intSamples);
      assert d == Widened(rec.intSamples);
      return Ok(d);
    }
    var code := rec.encoding.value;
    if code == Int16 || code == Int32 || code == Steim1 || code == Steim2 {
      var d := CastToDouble(rec.intSamples);
      assert d == Widened(rec.intSamples);
      return Ok(d);
    } else if code == Float32 || code == Float64 {
      var d := TranslateToList(rec.doubleSamples);
      return Ok(d);
    }
    return Err(UnsupportedEncoding);
  }

  // ---------------------------------------------------------------- the read loop

  /** What the read loop of `getDataRecords` returns for a stream of read outcomes, with
    * `convert` for one record: the converted records in read order, corrupt ones skipped,
    * nothing after the end of the file; the first conversion that throws ends the loop with
    * its exception. Running past the outcomes counts as the end of the file. */
  function ReadAll<S>(stream: seq<ReadOutcome>, convert: DataRecord -> Result<S, ConvertError>)
    : Result<seq<S>, ConvertError>
  {
    if stream == [] then Ok([])
    else match stream[0]
      case EndOfFile => Ok([])
      case Corrupt => ReadAll(stream[1..], convert)
      case Record(rec) =>
        var s :- convert(rec);
        var rest :- ReadAll(stream[1..], convert);
        Ok([s] + rest)
  }

  /** `acc` followed by the outcome of the rest of the loop. */
  function Then<S>(acc: seq<S>, r: Result<seq<S>, ConvertError>): Result<seq<S>, ConvertError>
  {
    if r.Ok? then Ok(acc + r.value) else r
  }

  /** The records read before the end of the file, corrupt ones dropped. */
  function RecordsBeforeEof(stream: seq<ReadOutcome>): seq<DataRecord>
  {
    if stream == [] then []
    else match stream[0]
      case EndOfFile => []
      case Corrupt => RecordsBeforeEof(stream[1..])
      case Record(rec) => [rec] + RecordsBeforeEof(stream[1..])
  }

  /** When no conversion throws, the loop returns exactly one converted value per record
    * before the end of the file, in read order. */
  lemma {:induction false} ReadAllConverts<S>(stream: seq<ReadOutcome>, convert: DataRecord -> Result<S, ConvertError>)
    requires ReadAll(stream, convert).Ok?
    ensures var recs := RecordsBeforeEof(stream);
            var out := ReadAll(stream, convert).value;
            |out| == |recs| && forall i :: 0 <= i < |recs| ==> convert(recs[i]) == Ok(out[i])
  {
    if stream != [] && !stream[0].EndOfFile? {
      ReadAllConverts(stream[1..], convert);
      if stream[0].Record? {
        var out := ReadAll(stream, convert).value;
        var recs := RecordsBeforeEof(stream);
        assert out[1..] == ReadAll(stream[1..], convert).value;
        assert recs[1..] == RecordsBeforeEof(stream[1..]);
      }
    }
  }

  /** A corrupt record is skipped: removing it changes nothing. */
  lemma {:induction false} ReadAllSkipsCorrupt<S>(a: seq<ReadOutcome>, b: seq<ReadOutcome>,
                                                  convert: DataRecord -> Result<S, ConvertError>)
    ensures ReadAll(a + [Corrupt] + b, convert) == ReadAll(a + b, convert)
    decreases |a|
  {
    if a == [] {
      assert a + [Corrupt] + b == [Corrupt] + b && a + b == b;
      assert ([Corrupt] + b)[1..] == b;
    } else {
      assert (a + [Corrupt] + b)[1..] == a[1..] + [Corrupt] + b;
      assert (a + b)[1..] == a[1..] + b;
      if !a[0].EndOfFile? {
        ReadAllSkipsCorrupt(a[1..], b, convert);
      }
    }
  }

  /** Reading stops at the end of the file: whatever follows it is never read. */
  lemma {:induction false} ReadAllStopsAtEof<S>(a: seq<ReadOutcome>, b: seq<ReadOutcome>,
                                                convert: DataRecord -> Result<S, ConvertError>)
    ensures ReadAll(a + [EndOfFile] + b, convert) == ReadAll(a, convert)
    decreases |a|
  {
    if a != [] {
      assert (a + [EndOfFile] + b)[1..] == a[1..] + [EndOfFile] + b;
      if !a[0].EndOfFile? {
        ReadAllStopsAtEof(a[1..], b, convert);
      }
    }
  }

  /** One step of the read loop keeps `ReadAll(stream) == Then(signals, ReadAll(rest))`. */
  lemma ReadStep<S>(stream: seq<ReadOutcome>, i: nat, acc: seq<S>,
                    convert: DataRecord -> Result<S, ConvertError>)
    requires i < |stream| && stream[i].Record? && convert(stream[i].rec).Ok?
    ensures Then(acc, ReadAll(stream[i..], convert))
            == Then(acc + [convert(stream[i].rec).value], ReadAll(stream[i + 1..], convert))
  {
    assert stream[i..][1..] == stream[i + 1..];
    var r := ReadAll(stream[i + 1..], convert);
    if r.Ok? {
      var x := convert(stream[i].rec).value;
      assert acc + ([x] + r.value) == acc + [x] + r.value;
    }
  }
}
