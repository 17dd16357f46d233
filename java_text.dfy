/** The parts of java.lang.String and java.lang.Integer the parsers rely on, with Java's
  * edge cases written out: `trim`, single-character `split` (limit 0), `indexOf` from an
  * index, `lastIndexOf`, `startsWith` and `Integer.parseInt` in radix 10. */
module JavaText {
  import opened Wrappers

  /** `String.trim` removes every leading and trailing character whose code is at most U+0020. */
  predicate IsTrimmable(c: char) { c <= ' ' }

  function TrimStart(s: string): (r: string)
    ensures |r| <= |s| && r == s[|s| - |r|..]
    ensures r != [] ==> !IsTrimmable(r[0])
    ensures forall i :: 0 <= i < |s| - |r| ==> IsTrimmable(s[i])
  {
    if s != [] && IsTrimmable(s[0]) then TrimStart(s[1..]) else s
  }

  function TrimEnd(s: string): (r: string)
    ensures |r| <= |s| && r == s[..|r|]
    ensures r != [] ==> !IsTrimmable(r[|r| - 1])
    ensures forall i :: |r| <= i < |s| ==> IsTrimmable(s[i])
  {
    if s != [] && IsTrimmable(s[|s| - 1]) then TrimEnd(s[..|s| - 1]) else s
  }

  function Trim(s: string): (r: string)
    ensures |r| <= |s|
    ensures r != [] ==> !IsTrimmable(r[0]) && !IsTrimmable(r[|r| - 1])
  {
    TrimEnd(TrimStart(s))
  }

  /** `s.isBlank()` after `trim()`: nothing but characters at most U+0020. */
  predicate IsBlankAfterTrim(s: string) { Trim(s) == "" }

  /** Index of the first `c` at or after `from`, or `|s|` when there is none. */
  function FirstIndexFrom(s: string, c: char, from: nat): (r: nat)
    requires from <= |s|
    ensures from <= r <= |s|
    ensures r < |s| ==> s[r] == c
    ensures forall i :: from <= i < r ==> s[i] != c
    decreases |s| - from
  {
    if from == |s| then |s| else if s[from] == c then from else FirstIndexFrom(s, c, from + 1)
  }

  /** `s.indexOf(c, from)` for a non-negative `from`: -1 when absent (also when `from >= |s|`). */
  function IndexOf(s: string, c: char, from: nat): (r: int)
    ensures r == -1 || (from <= r < |s| && s[r] == c)
    ensures r == -1 <==> forall i :: from <= i < |s| ==> s[i] != c
    ensures r != -1 ==> forall i :: from <= i < r ==> s[i] != c
  {
    if from >= |s| then -1
    else
      var i := FirstIndexFrom(s, c, from);
      if i == |s| then -1 else i
  }

  /** `s.lastIndexOf(c)`: -1 when absent. */
  function LastIndexOf(s: string, c: char): (r: int)
    ensures -1 <= r < |s|
    ensures r >= 0 ==> s[r] == c
    ensures forall i :: r < i < |s| ==> s[i] != c
  {
    if s == [] then -1 else if s[|s| - 1] == c then |s| - 1 else LastIndexOf(s[..|s| - 1], c)
  }

  predicate StartsWith(s: string, prefix: string) { |prefix| <= |s| && s[..|prefix|] == prefix }

  /** Every field between separators, empty ones included; `Join` is its inverse. */
  function Fields(s: string, sep: char): (r: seq<string>)
    ensures |r| >= 1
    ensures forall i :: 0 <= i < |r| ==> sep !in r[i]
    decreases |s|
  {
    var i := FirstIndexFrom(s, sep, 0);
    if i == |s| then [s] else [s[..i]] + Fields(s[i + 1..], sep)
  }

  function Join(fs: seq<string>, sep: char): string
    requires |fs| >= 1
  {
    if |fs| == 1 then fs[0] else fs[0] + [sep] + Join(fs[1..], sep)
  }

  function DropTrailingEmpty(fs: seq<string>): (r: seq<string>)
    ensures |r| <= |fs| && r == fs[..|r|]
    ensures r != [] ==> r[|r| - 1] != ""
    ensures forall i :: |r| <= i < |fs| ==> fs[i] == ""
  {
    if fs != [] && fs[|fs| - 1] == "" then DropTrailingEmpty(fs[..|fs| - 1]) else fs
  }

  /** `s.split(sep)` with Java's default limit 0: trailing empty fields are removed, except
    * that the empty string splits into one empty field. */
  function Split(s: string, sep: char): (r: seq<string>)
    ensures forall i :: 0 <= i < |r| ==> sep !in r[i]
  {
    if s == "" then [""] else DropTrailingEmpty(Fields(s, sep))
  }

  lemma {:induction false} FieldsJoin(s: string, sep: char)
    ensures Join(Fields(s, sep), sep) == s
    decreases |s|
  {
    var i := FirstIndexFrom(s, sep, 0);
    if i < |s| {
      FieldsJoin(s[i + 1..], sep);
      assert s == s[..i] + [sep] + s[i + 1..];
    }
  }

  lemma {:induction false} JoinFields(fs: seq<string>, sep: char)
    requires |fs| >= 1
    requires forall i :: 0 <= i < |fs| ==> sep !in fs[i]
    ensures Fields(Join(fs, sep), sep) == fs
    decreases |fs|
  {
    var s := Join(fs, sep);
    if |fs| == 1 {
      FirstIndexAbsent(s, sep);
    } else {
      var rest := Join(fs[1..], sep);
      assert s == fs[0] + [sep] + rest;
      FirstIndexAt(s, sep, |fs[0]|);
      assert s[|fs[0]| + 1..] == rest;
      assert s[..|fs[0]|] == fs[0];
      JoinFields(fs[1..], sep);
    }
  }

  /** Joining two field lists is joining each and gluing the texts with a separator. */
  lemma {:induction false} JoinAppend(fs: seq<string>, gs: seq<string>, sep: char)
    requires |fs| >= 1 && |gs| >= 1
    ensures Join(fs + gs, sep) == Join(fs, sep) + [sep] + Join(gs, sep)
    decreases |fs|
  {
    var all := fs + gs;
    assert all[0] == fs[0];
    if |fs| == 1 {
      assert all[1..] == gs;
    } else {
      assert all[1..] == fs[1..] + gs;
      JoinAppend(fs[1..], gs, sep);
      var j, k := Join(fs[1..], sep), Join(gs, sep);
      assert fs[0] + [sep] + (j + [sep] + k) == (fs[0] + [sep] + j) + [sep] + k;
    }
  }

  lemma FirstIndexAbsent(s: string, c: char)
    requires c !in s
    ensures FirstIndexFrom(s, c, 0) == |s|
  {
  }

  lemma FirstIndexAt(s: string, c: char, k: nat)
    requires k < |s| && s[k] == c && c !in s[..k]
    ensures FirstIndexFrom(s, c, 0) == k
  {
  }

  predicate IsAsciiDigit(c: char) { '0' <= c <= '9' }

  predicate AllAsciiDigits(s: string) { forall i :: 0 <= i < |s| ==> IsAsciiDigit(s[i]) }

  function DigitValue(c: char): nat requires IsAsciiDigit(c) { (c as int) - ('0' as int) }

  function Pow10(n: nat): (r: nat)
    ensures r >= 1
  {
    if n == 0 then 1 else 10 * Pow10(n - 1)
  }

  /** The number a string of decimal digits denotes. */
  function DigitsValue(s: string): (r: nat)
    requires AllAsciiDigits(s)
    ensures r < Pow10(|s|)
  {
    if s == [] then 0 else DigitsValue(s[..|s| - 1]) * 10 + DigitValue(s[|s| - 1])
  }

  /** The digits of a string, in order, everything else dropped. */
  function KeepAsciiDigits(s: string): (r: string)
    ensures AllAsciiDigits(r) && |r| <= |s|
  {
    if s == [] then [] else
      var rest := KeepAsciiDigits(s[..|s| - 1]);
      if IsAsciiDigit(s[|s| - 1]) then rest + [s[|s| - 1]] else rest
  }

  const IntMin: int := -0x8000_0000
  const IntMax: int := 0x7fff_ffff

  /** `Integer.parseInt(s)`: an optional sign followed by at least one digit, and a value that
    * fits in 32 bits; anything else is a NumberFormatException (`None`). */
  function ParseInt(s: string): (r: Option<int>)
    ensures r.Some? ==> IntMin <= r.value <= IntMax
  {
    if s == [] then None
    else
      var negative := s[0] == '-';
      var digits := if s[0] == '-' || s[0] == '+' then s[1..] else s;
      if digits == [] || !AllAsciiDigits(digits) then None
      else
        var magnitude: int := DigitsValue(digits);
        var v := if negative then 0 - magnitude else magnitude;
        if IntMin <= v <= IntMax then Some(v) else None
  }
}
