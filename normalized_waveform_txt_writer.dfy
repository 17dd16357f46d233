/** `NormalizedWaveformTXTWriter`: the file name of a saved waveform (the name with its
  * extension replaced by `txt`) and the text written into it, every value followed by a
  * space and a line break after every seventh value. Directory creation, the date-named
  * folder and the writing itself are I/O; `Double.toString` is the parameter `show`, and a
  * line break is written as '\n'. */
module NormalizedWaveformTxtWriter {
  import opened JavaText

  /** `changeExtension`: the text before the last '.' (all of `name` when there is none),
    * then '.', then the new extension. */
  function ChangeExtension(name: string, newExtension: string): string
  {
    var dot := LastIndexOf(name, '.');
    var base := if dot == -1 then name else name[..dot];
    base + "." + newExtension
  }

  /** `generateFilename`: the date formatter it builds is never used. */
  function GenerateFilename(fileName: string): string
  {
    ChangeExtension(fileName, "txt")
  }

  /** Characterises the rewrite without `lastIndexOf`: a dot-free name gains the extension,
    * otherwise everything from the last dot on is replaced. */
  lemma ChangeExtensionMeaning(name: string, ext: string)
    ensures '.' !in name ==> ChangeExtension(name, ext) == name + "." + ext
    ensures '.' in name ==>
              exists k :: 0 <= k < |name| && name[k] == '.' && '.' !in name[k + 1..]
                          && ChangeExtension(name, ext) == name[..k] + "." + ext
  {
    var dot := LastIndexOf(name, '.');
    if '.' in name {
      var j :| 0 <= j < |name| && name[j] == '.';
      assert dot >= j;
      var rest := name[dot + 1..];
      assert forall m :: 0 <= m < |rest| ==> rest[m] == name[dot + 1 + m];
    }
  }

  /** The last '.' of `base + "." + ext` is the one before `ext` when `ext` has none. */
  lemma LastDotBeforeExtension(base: string, ext: string)
    requires '.' !in ext
    ensures LastIndexOf(base + "." + ext, '.') == |base|
  {
    LastIndexOfSkips(base + ".", ext, '.');
    assert (base + ".")[..|base + "."| - 1] == base;
  }

  /** Characters after the last occurrence that are not `c` do not move it. */
  lemma {:induction false} LastIndexOfSkips(s: string, t: string, c: char)
    requires c !in t
    ensures LastIndexOf(s + t, c) == LastIndexOf(s, c)
    decreases |t|
  {
    if t == [] {
      assert s + t == s;
    } else {
      assert (s + t)[..|s + t| - 1] == s + t[..|t| - 1];
      assert (s + t)[|s + t| - 1] == t[|t| - 1];
      LastIndexOfSkips(s, t[..|t| - 1], c);
    }
  }

  /** Changing the extension twice to the same dot-free extension changes it once. */
  lemma ChangeExtensionIdempotent(name: string, ext: string)
    requires '.' !in ext
    ensures ChangeExtension(ChangeExtension(name, ext), ext) == ChangeExtension(name, ext)
  {
    var dot := LastIndexOf(name, '.');
    var base := if dot == -1 then name else name[..dot];
    var once := base + "." + ext;
    LastDotBeforeExtension(base, ext);
    assert once[..|base|] == base;
  }

  /** The generated name ends in ".txt" and is a fixed point of the rewrite. */
  lemma GenerateFilenameTxt(fileName: string)
    ensures var r := GenerateFilename(fileName);
            |r| >= 4 && r[|r| - 4..] == ".txt" && GenerateFilename(r) == r
  {
    ChangeExtensionIdempotent(fileName, "txt");
  }

  // ---------------------------------------------------------------- layout

  /** The text for the value at index `i`: its decimal form, a space, and a line break when
    * it is the seventh value of its line. */
  function Token(show: real -> string, v: real, i: nat): string
  {
    show(v) + " " + (if (i + 1) % 7 == 0 then "\n" else "")
  }

  /** Everything `fileSaving` writes for `values`. */
  function Layout(show: real -> string, values: seq<real>): string
  {
    if values == [] then ""
    else Layout(show, values[..|values| - 1]) + Token(show, values[|values| - 1], |values| - 1)
  }

  /** The writing loop of `fileSaving`, driven by the `onlySeven` counter (a Java `byte`
    * that stays within 0..6 between values, so it never wraps). */
  method WriteValues(show: real -> string, values: seq<real>) returns (text: string)
    ensures text == Layout(show, values)
  {
    text := "";
    var onlySeven := 0;
    for i := 0 to |values|
      invariant 0 <= onlySeven < 7 && onlySeven == i % 7
      invariant text == Layout(show, values[..i])
    {
      LayoutStep(show, values, i);
      text, onlySeven := WriteValue(show, values[i], i, text, onlySeven);
    }
    assert values[..|values|] == values;
  }

  /** One pass of the writing loop: the value, a space, and a line break that resets the
    * counter after the seventh value of a line. */
  method WriteValue(show: real -> string, v: real, i: nat, text: string, onlySeven: int)
    returns (text': string, onlySeven': int)
    requires onlySeven == i % 7
    ensures text' == text + Token(show, v, i) && onlySeven' == (i + 1) % 7
  {
    text' := text + show(v);
    text' := text' + " ";
    onlySeven' := onlySeven + 1;
    if onlySeven' == 7 {
      text' := text' + "\n";
      onlySeven' := 0;
    }
  }

  /** The layout of one more value is the layout so far followed by that value's token. */
  lemma LayoutStep(show: real -> string, values: seq<real>, i: int)
    requires 0 <= i < |values|
    ensures Layout(show, values[..i + 1]) == Layout(show, values[..i]) + Token(show, values[i], i)
  {
    assert values[..i + 1][..i] == values[..i];
  }

  function CountChar(s: string, c: char): nat
  {
    if s == [] then 0 else CountChar(s[..|s| - 1], c) + (if s[|s| - 1] == c then 1 else 0)
  }

  lemma {:induction false} CountCharAppend(a: string, b: string, c: char)
    ensures CountChar(a + b, c) == CountChar(a, c) + CountChar(b, c)
    decreases |b|
  {
    if b == [] {
      assert a + b == a;
    } else {
      assert (a + b)[..|a + b| - 1] == a + b[..|b| - 1];
      CountCharAppend(a, b[..|b| - 1], c);
    }
  }

  lemma {:induction false} CountCharAbsent(s: string, c: char)
    requires c !in s
    ensures CountChar(s, c) == 0
  {
    if s != [] {
      assert s[..|s| - 1] <= s;
      CountCharAbsent(s[..|s| - 1], c);
    }
  }

  /** A value's token holds one line break exactly when it is the seventh of its line. */
  lemma TokenBreaks(show: real -> string, v: real, i: nat)
    requires '\n' !in show(v)
    ensures CountChar(Token(show, v, i), '\n') == if (i + 1) % 7 == 0 then 1 else 0
  {
    CountCharAbsent(show(v), '\n');
    CountCharAppend(show(v), " ", '\n');
    assert CountChar(" ", '\n') == 0;
    var tail: string := if (i + 1) % 7 == 0 then "\n" else "";
    CountCharAppend(show(v) + " ", tail, '\n');
    if (i + 1) % 7 == 0 {
      assert CountChar(tail, '\n') == 1 by { assert tail[..0] == ""; }
    }
  }

  /** `n` values produce floor(n / 7) line breaks, given that a printed number holds none. */
  lemma {:induction false} LayoutLineBreaks(show: real -> string, values: seq<real>)
    requires forall i :: 0 <= i < |values| ==> '\n' !in show(values[i])
    ensures CountChar(Layout(show, values), '\n') == |values| / 7
  {
    if values != [] {
      var n := |values|;
      LayoutLineBreaks(show, values[..n - 1]);
      CountCharAppend(Layout(show, values[..n - 1]), Token(show, values[n - 1], n - 1), '\n');
      TokenBreaks(show, values[n - 1], n - 1);
    }
  }

  /** Every value is followed by exactly one space: n values give n spaces, given that a
    * printed number holds none. */
  lemma {:induction false} LayoutSpaces(show: real -> string, values: seq<real>)
    requires forall i :: 0 <= i < |values| ==> ' ' !in show(values[i])
    ensures CountChar(Layout(show, values), ' ') == |values|
  {
    if values != [] {
      var n := |values|;
      var v := values[n - 1];
      LayoutSpaces(show, values[..n - 1]);
      CountCharAppend(Layout(show, values[..n - 1]), Token(show, v, n - 1), ' ');
      CountCharAbsent(show(v), ' ');
      CountCharAppend(show(v), " ", ' ');
      assert CountChar(" ", ' ') == 1 by { assert " "[..0] == ""; }
      var tail: string := if n % 7 == 0 then "\n" else "";
      CountCharAbsent(tail, ' ');
      CountCharAppend(show(v) + " ", tail, ' ');
    }
  }
}
