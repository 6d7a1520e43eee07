/**
 * The large-digit renderer of src/view/number_drawer.rs, used to show the
 * volume. `enlarge` maps a character to a multi-line glyph; `draw` collects
 * the glyphs of the input (up to and including its first non-digit) and lays
 * them side by side, row by row.
 */
module NumberDrawer {

  predicate IsAsciiDigit(c: char)
  {
    '0' <= c <= '9'
  }

  /** `s` holds no line break. */
  predicate NoNewline(s: string)
  {
    '\n' !in s
  }

  /**
   * The rows of the glyph for `c`, top to bottom. Every glyph starts with an
   * empty row; the glyphs of '0'-'3' have seven rows, those of '4'-'9' eight
   * (the last one empty), and the fallback glyph for any other character five.
   */
  function GlyphRows(c: char): (rows: seq<string>)
    ensures '0' <= c <= '3' ==> |rows| == 7
    ensures '4' <= c <= '9' ==> |rows| == 8 && rows[7] == ""
    ensures !IsAsciiDigit(c) ==> |rows| == 5
    ensures rows[0] == ""
  {
    match c
    case '0' => ["", "╔═══╗", "║╔═╗║", "║║ ║║", "║║ ║║", "║╚═╝║", "╚═══╝"]
    case '1' => ["", "  ╔╗ ", " ╔╝║ ", " ╚╗║ ", "  ║║ ", " ╔╝╚╗", " ╚══╝"]
    case '2' => ["", "╔═══╗", "║╔═╗║", "╚╝╔╝║", "╔═╝╔╝", "║║╚═╗", "╚═══╝"]
    case '3' => ["", "╔═══╗", "║╔═╗║", "╚╝╔╝║", "╔╗╚╗║", "║╚═╝║", "╚═══╝"]
    case '4' => ["", "╔╗ ╔╗", "║║ ║║", "║╚═╝║", "╚══╗║", "   ║║", "   ╚╝", ""]
    case '5' => ["", "╔═══╗", "║╔══╝", "║╚══╗", "╚══╗║", "╔══╝║", "╚═══╝", ""]
    case '6' => ["", "╔═══╗", "║╔══╝", "║╚══╗", "║╔═╗║", "║╚═╝║", "╚═══╝", ""]
    case '7' => ["", "╔═══╗", "║╔═╗║", "╚╝╔╝║", "  ║╔╝", "  ║║ ", "  ╚╝ ", ""]
    case '8' => ["", "╔═══╗", "║╔═╗║", "║╚═╝║", "║╔═╗║", "║╚═╝║", "╚═══╝", ""]
    case '9' => ["", "╔═══╗", "║╔═╗║", "║╚═╝║", "╚══╗║", "╔══╝║", "╚═══╝", ""]
    case _ => ["", "  ,_,  ", " (.,.) ", " (   ) ", "--\"-\"---"]
  }

  /** No glyph row holds a line break. */
  lemma GlyphRowsNoNewline(c: char)
    ensures forall i :: 0 <= i < |GlyphRows(c)| ==> NoNewline(GlyphRows(c)[i])
  {
  }

  /** Lines, each followed by a line break. */
  function Terminated(lines: seq<string>): string
  {
    if lines == [] then "" else lines[0] + "\n" + Terminated(lines[1..])
  }

  /** The position of the first line break of `s`, or `|s|` when there is none. */
  function LineBreak(s: string): (i: nat)
    ensures i <= |s|
    ensures i < |s| ==> s[i] == '\n'
    ensures forall k :: 0 <= k < i ==> s[k] != '\n'
  {
    if s == [] || s[0] == '\n' then 0 else 1 + LineBreak(s[1..])
  }

  /**
   * `str::lines`: the pieces between line breaks, where a break at the very
   * end does not start another, empty, line.
   */
  function Lines(s: string): seq<string>
    decreases |s|
  {
    if s == [] then []
    else
      var i := LineBreak(s);
      [s[..i]] + (if i < |s| then Lines(s[i + 1..]) else [])
  }

  /** Splitting terminated lines gives the lines back. */
  lemma {:induction false} LinesOfTerminated(lines: seq<string>)
    requires forall i :: 0 <= i < |lines| ==> NoNewline(lines[i])
    ensures Lines(Terminated(lines)) == lines
    decreases |lines|
  {
    if lines != [] {
      var s := Terminated(lines);
      var rest := Terminated(lines[1..]);
      assert s == lines[0] + "\n" + rest;
      var i := LineBreak(s);
      assert s[|lines[0]|] == '\n';
      assert i == |lines[0]|;
      assert s[..i] == lines[0];
      assert s[i + 1..] == rest;
      LinesOfTerminated(lines[1..]);
    }
  }

  /** `enlarge`: the glyph as one string, each of its rows followed by a line break. */
  function Enlarge(c: char): (glyph: string)
    ensures Lines(glyph) == GlyphRows(c)
  {
    GlyphRowsNoNewline(c);
    LinesOfTerminated(GlyphRows(c));
    Terminated(GlyphRows(c))
  }

  /** Different digits have different glyphs. */
  lemma DigitGlyphsDistinct(c: char, d: char)
    requires IsAsciiDigit(c) && IsAsciiDigit(d) && c != d
    ensures Enlarge(c) != Enlarge(d)
  {
    assert GlyphRows(c) != GlyphRows(d) by {
      GlyphRowsDistinct(c, d);
    }
  }

  /** A row where the glyphs of two different digits differ. */
  lemma GlyphRowsDistinct(c: char, d: char)
    requires IsAsciiDigit(c) && IsAsciiDigit(d) && c != d
    ensures GlyphRows(c) != GlyphRows(d)
  {
    if |GlyphRows(c)| == |GlyphRows(d)| {
      var k :| 1 <= k < 7 && GlyphRows(c)[k] != GlyphRows(d)[k] by {
        DistinctRowWitness(c, d);
      }
    }
  }

  /** For two different digits whose glyphs have the same height, some row in 1..6 differs. */
  lemma DistinctRowWitness(c: char, d: char)
    requires IsAsciiDigit(c) && IsAsciiDigit(d) && c != d
    requires |GlyphRows(c)| == |GlyphRows(d)|
    ensures exists k :: 1 <= k < 7 && GlyphRows(c)[k] != GlyphRows(d)[k]
  {
    var rc := GlyphRows(c);
    var rd := GlyphRows(d);
    if rc[1] == rd[1] && rc[2] == rd[2] && rc[3] == rd[3] && rc[4] == rd[4] {
      assert rc[5] != rd[5] || rc[6] != rd[6];
    }
  }

  /** A character other than a digit gets the fallback glyph. */
  lemma NonDigitsShareFallback(c: char, d: char)
    requires !IsAsciiDigit(c) && !IsAsciiDigit(d)
    ensures Enlarge(c) == Enlarge(d)
  {
  }

  /**
   * What `draw` collects, with `glyph` applied to each collected character:
   * one entry per input character in input order, up to and including the
   * first character that is not a digit.
   */
  function Collect<T>(number: string, glyph: char -> T): (glyphs: seq<T>)
    ensures |glyphs| <= |number|
    ensures number != [] ==> |glyphs| >= 1
    ensures forall i :: 0 <= i < |glyphs| ==> glyphs[i] == glyph(number[i])
  {
    if number == [] then []
    else [glyph(number[0])] + (if IsAsciiDigit(number[0]) then Collect(number[1..], glyph) else [])
  }

  /** The glyph rows `draw` collects. */
  function Collected(number: string): seq<seq<string>>
  {
    Collect(number, GlyphRows)
  }

  /**
   * Collection stops exactly after the first non-digit: every collected
   * character but the last is a digit, the last is not when input remains,
   * and an all-digit input is collected in full.
   */
  lemma {:induction false} CollectStops<T>(number: string, glyph: char -> T)
    ensures forall i :: 0 <= i < |Collect(number, glyph)| - 1 ==> IsAsciiDigit(number[i])
    ensures |Collect(number, glyph)| < |number| ==> !IsAsciiDigit(number[|Collect(number, glyph)| - 1])
    ensures (forall i :: 0 <= i < |number| ==> IsAsciiDigit(number[i])) ==> |Collect(number, glyph)| == |number|
    decreases |number|
  {
    if number != [] && IsAsciiDigit(number[0]) {
      var rest := number[1..];
      CollectStops(rest, glyph);
      assert forall i :: 0 <= i < |rest| ==> rest[i] == number[i + 1];
    }
  }

  /** Collecting from position `i` takes the entry at `i` and goes on only after a digit. */
  lemma CollectStep<T>(number: string, glyph: char -> T, i: nat)
    requires i < |number|
    ensures Collect(number[i..], glyph)
            == [glyph(number[i])] + (if IsAsciiDigit(number[i]) then Collect(number[i + 1..], glyph) else [])
  {
    assert number[i..][1..] == number[i + 1..];
  }

  lemma AppendAssociative<T>(a: seq<T>, b: seq<T>, c: seq<T>)
    ensures (a + b) + c == a + (b + c)
  {
  }

  /** One step of the collecting loop: the entry at `i` is added; after a non-digit the collection is complete. */
  lemma CollectPrefixStep<T>(number: string, glyph: char -> T, i: nat, collected: seq<T>)
    requires i < |number|
    requires collected + Collect(number[i..], glyph) == Collect(number, glyph)
    ensures IsAsciiDigit(number[i])
            ==> (collected + [glyph(number[i])]) + Collect(number[i + 1..], glyph) == Collect(number, glyph)
    ensures !IsAsciiDigit(number[i]) ==> collected + [glyph(number[i])] == Collect(number, glyph)
  {
    CollectStep(number, glyph, i);
    var rest := if IsAsciiDigit(number[i]) then Collect(number[i + 1..], glyph) else [];
    AppendAssociative(collected, [glyph(number[i])], rest);
  }

  /** `enlarge(digit).lines()`: the glyph split back into its rows. */
  method DigitLines(digit: char) returns (digitLine: seq<string>)
    ensures digitLine == GlyphRows(digit)
  {
    var bigDigit := Enlarge(digit);
    digitLine := Lines(bigDigit);
  }

  /** The first half of `draw`: the glyph rows of each character, stopping after the first non-digit. */
  method CollectGlyphs(number: string) returns (bigNumbers: seq<seq<string>>)
    ensures bigNumbers == Collected(number)
  {
    bigNumbers := [];
    var i := 0;
    while i < |number|
      invariant i <= |number|
      invariant bigNumbers + Collect(number[i..], GlyphRows) == Collected(number)
    {
      var digit := number[i];
      var digitLine := DigitLines(digit);
      CollectPrefixStep(number, GlyphRows, i, bigNumbers);
      bigNumbers := bigNumbers + [digitLine];
      if !IsAsciiDigit(digit) {
        break;
      }
      i := i + 1;
    }
  }

  /** Every glyph has at least as many rows as the first, so row `index` of each exists for every row of the first. */
  predicate Composable(bigNumbers: seq<seq<string>>)
  {
    |bigNumbers| > 0 && forall k :: 0 <= k < |bigNumbers| ==> |bigNumbers[0]| <= |bigNumbers[k]|
  }

  /** Row `index` of the output: row `index` of each glyph, side by side. */
  function Row(bigNumbers: seq<seq<string>>, index: nat): (row: string)
    requires forall k :: 0 <= k < |bigNumbers| ==> index < |bigNumbers[k]|
    ensures (forall k :: 0 <= k < |bigNumbers| ==> NoNewline(bigNumbers[k][index])) ==> NoNewline(row)
  {
    if bigNumbers == [] then "" else bigNumbers[0][index] + Row(bigNumbers[1..], index)
  }

  /** The first `height` output rows. */
  function Rows(bigNumbers: seq<seq<string>>, height: nat): (rows: seq<string>)
    requires forall k :: 0 <= k < |bigNumbers| ==> height <= |bigNumbers[k]|
    ensures |rows| == height
    ensures forall i :: 0 <= i < height ==> rows[i] == Row(bigNumbers, i)
  {
    if height == 0 then [] else Rows(bigNumbers, height - 1) + [Row(bigNumbers, height - 1)]
  }

  /** `join`: the rows with `separator` between each two. */
  function Join(rows: seq<string>, separator: string): string
  {
    if rows == [] then ""
    else if |rows| == 1 then rows[0]
    else rows[0] + separator + Join(rows[1..], separator)
  }

  /** `draw` panics on an empty input and on a later glyph shorter than the first. */
  predicate DrawSafe(number: string)
  {
    Composable(Collected(number))
  }

  /** The text `draw` returns. */
  function Drawn(number: string): string
    requires DrawSafe(number)
  {
    var bigNumbers := Collected(number);
    Join(Rows(bigNumbers, |bigNumbers[0]|), "\n") + "\n"
  }

  /** `draw`. */
  method Draw(number: string) returns (text: string)
    requires DrawSafe(number)
    ensures text == Drawn(number)
  {
    var bigNumbers := CollectGlyphs(number);
    var height := |bigNumbers[0]|;
    text := Join(Rows(bigNumbers, height), "\n") + "\n";
  }

  /** Joining non-empty rows with line breaks and adding one more terminates every row. */
  lemma {:induction false} JoinTerminated(rows: seq<string>)
    requires rows != []
    ensures Join(rows, "\n") + "\n" == Terminated(rows)
    decreases |rows|
  {
    if |rows| > 1 {
      JoinTerminated(rows[1..]);
      assert Join(rows, "\n") + "\n" == rows[0] + "\n" + (Join(rows[1..], "\n") + "\n");
    } else {
      assert Terminated(rows[1..]) == "";
    }
  }

  /**
   * The output has as many rows as the first glyph, each ending in a line
   * break, and row `i` is row `i` of every collected glyph, in input order.
   */
  lemma DrawnRows(number: string)
    requires DrawSafe(number)
    ensures var bigNumbers := Collected(number);
            var height := |GlyphRows(number[0])|;
            && |Lines(Drawn(number))| == height
            && (forall i :: 0 <= i < height ==> Lines(Drawn(number))[i] == Row(bigNumbers, i))
            && Drawn(number) == Terminated(Lines(Drawn(number)))
  {
    var bigNumbers := Collected(number);
    var height := |bigNumbers[0]|;
    var rows := Rows(bigNumbers, height);
    assert height > 0;
    forall i | 0 <= i < |rows|
      ensures NoNewline(rows[i])
    {
      forall k | 0 <= k < |bigNumbers|
        ensures NoNewline(bigNumbers[k][i])
      {
        assert bigNumbers[k] == GlyphRows(number[k]);
        GlyphRowsNoNewline(number[k]);
      }
    }
    JoinTerminated(rows);
    LinesOfTerminated(rows);
  }

  /** "40" panics: the glyph of '4' has eight rows and that of '0' only seven. */
  lemma FortyNotDrawable()
    ensures !DrawSafe("40")
  {
    assert Collected("40")[1] == GlyphRows('0');
  }

  /** An empty input panics: there is no first glyph to take the height from. */
  lemma EmptyNotDrawable()
    ensures !DrawSafe("")
  {
  }

  /**
   * Two digits whose first is '0', '1' or '2' draw: seven rows, the first of
   * them empty.
   */
  lemma TwoDigitsDrawable(a: char, b: char)
    requires '0' <= a <= '2' && IsAsciiDigit(b)
    ensures DrawSafe([a, b])
    ensures |Lines(Drawn([a, b]))| == 7
    ensures Lines(Drawn([a, b]))[0] == ""
  {
    var number := [a, b];
    assert Collected(number) == [GlyphRows(a), GlyphRows(b)] by {
      assert Collected(number)[0] == GlyphRows(a);
      assert Collected(number)[1] == GlyphRows(b);
    }
    DrawnRows(number);
    RowOfTwo(GlyphRows(a), GlyphRows(b), 0);
  }

  /** A row of two glyphs side by side. */
  lemma RowOfTwo(first: seq<string>, second: seq<string>, index: nat)
    requires index < |first| && index < |second|
    ensures Row([first, second], index) == first[index] + second[index]
  {
    assert [first, second][1..] == [second];
    assert [second][1..] == [];
    assert Row([second], index) == second[index] + Row([], index);
    assert second[index] + "" == second[index];
  }

  /** The decimal digits of `n`, most significant first (`u32::to_string`). */
  function DecimalDigits(n: nat): (s: string)
    ensures |s| >= 1
    ensures forall i :: 0 <= i < |s| ==> IsAsciiDigit(s[i])
    ensures n < 10 ==> s == ['0' + n as char]
    ensures 10 <= n < 100 ==> s == ['0' + (n / 10) as char, '0' + (n % 10) as char]
  {
    if n < 10 then ['0' + n as char] else DecimalDigits(n / 10) + ['0' + (n % 10) as char]
  }

  /**
   * The text the volume display draws (src/view.rs): the volume in tenths,
   * truncated, written with at least two digits.
   */
  function VolumeText(volume: int): (s: string)
    ensures volume < 0 ==> s == "00"
    ensures 0 <= volume < 1000 ==> s == ['0' + (volume / 100) as char, '0' + (volume / 10 % 10) as char]
  {
    var tenths := if volume < 0 then 0 else volume / 10;
    var digits := DecimalDigits(tenths);
    if tenths < 10 then "0" + digits else digits
  }

  /** Every volume the engine can reach, 0 to 200 hundredths, is shown as two digits that draw. */
  lemma VolumeTextDrawable(volume: int)
    requires 0 <= volume <= 200
    ensures |VolumeText(volume)| == 2
    ensures '0' <= VolumeText(volume)[0] <= '2'
    ensures DrawSafe(VolumeText(volume))
    ensures |Lines(Drawn(VolumeText(volume)))| == 7
  {
    var s := VolumeText(volume);
    TwoDigitsDrawable(s[0], s[1]);
    assert s == [s[0], s[1]];
  }
}
