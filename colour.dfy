/**
 * The progress colour parser: the three channels the glow gradient is
 * tinted with, read from the progress colour string.
 *
 * A string starting with "#" is read as hex pairs (the forms of section 5.2
 * of CSS Color Module Level 4); a string starting with "rgb" has its first
 * three maximal decimal-digit runs read as channels (a loose reading of the
 * `rgb()`/`rgba()` forms of section 5.1); anything else keeps the default
 * green. Nothing is clamped or validated.
 */
module ProgressColour {
  import opened Wrappers
  import opened Canvas

  const DefaultColour := "rgba(29, 185, 84, 1)"

  /** `progress?.color || DefaultColour`: a missing or empty colour string gives the default green. */
  function ResolveColour(color: Option<string>): (s: string)
    ensures s != []
    ensures s == DefaultColour || color == Some(s)
    ensures color.Some? && color.value != "" ==> s == color.value
  {
    if color.None? || color.value == "" then DefaultColour else color.value
  }

  datatype Rgb = Rgb(r: Channel, g: Channel, b: Channel)

  const DefaultRgb := Rgb(Some(29), Some(185), Some(84))

  predicate IsDigit(c: char)
  {
    '0' <= c <= '9'
  }

  predicate IsHexDigit(c: char)
  {
    IsDigit(c) || 'a' <= c <= 'f' || 'A' <= c <= 'F'
  }

  predicate AllDigits(s: string)
  {
    forall k :: 0 <= k < |s| ==> IsDigit(s[k])
  }

  predicate AllHexDigits(s: string)
  {
    forall k :: 0 <= k < |s| ==> IsHexDigit(s[k])
  }

  predicate NoDigits(s: string)
  {
    forall k :: 0 <= k < |s| ==> !IsDigit(s[k])
  }

  predicate StartsWith(s: string, prefix: string)
  {
    |prefix| <= |s| && s[..|prefix|] == prefix
  }

  function DigitValue(c: char): (v: nat)
    requires IsHexDigit(c)
    ensures v < 16
    ensures IsDigit(c) <==> v < 10
  {
    if IsDigit(c) then (c - '0') as nat
    else if 'a' <= c <= 'f' then (c - 'a') as nat + 10
    else (c - 'A') as nat + 10
  }

  /** The number a string of digits denotes in the given base, most significant first. */
  function Value(s: string, base: nat): nat
    requires AllHexDigits(s)
  {
    if s == [] then 0 else Value(s[..|s| - 1], base) * base + DigitValue(s[|s| - 1])
  }

  /** `s.substring(start, end)` for start <= end: indices past the end are clamped. */
  function Substring(s: string, start: nat, end: nat): (t: string)
    requires start <= end
    ensures end <= |s| ==> t == s[start..end]
    ensures start <= |s| <= end ==> t == s[start..]
    ensures |s| <= start ==> t == []
    ensures |t| <= end - start
  {
    var b := if end < |s| then end else |s|;
    var a := if start < b then start else b;
    s[a..b]
  }

  /** Length of the longest prefix of hex digits. */
  function LeadingHexDigits(s: string): (n: nat)
    ensures n <= |s| && AllHexDigits(s[..n])
    ensures n < |s| ==> !IsHexDigit(s[n])
  {
    if s == [] || !IsHexDigit(s[0]) then 0
    else
      var n := 1 + LeadingHexDigits(s[1..]);
      assert s[..n] == [s[0]] + s[1..][..n - 1];
      n
  }

  /** Length of the longest prefix of decimal digits. */
  function LeadingDigits(s: string): (n: nat)
    ensures n <= |s| && AllDigits(s[..n])
    ensures n < |s| ==> !IsDigit(s[n])
  {
    if s == [] || !IsDigit(s[0]) then 0
    else
      var n := 1 + LeadingDigits(s[1..]);
      assert s[..n] == [s[0]] + s[1..][..n - 1];
      n
  }

  /**
   * `parseInt(field, 16)` on a field that starts with a hex digit or with
   * "0x"/"0X": the value of the longest run of hex digits, None (NaN) when
   * there is none. A field led by white space or a sign is read as None.
   */
  function ParseHex(field: string): (c: Channel)
    ensures AllHexDigits(field) && |field| > 0 && !(|field| >= 2 && field[0] == '0' && field[1] in "xX")
            ==> c == Some(Value(field, 16))
  {
    var digits := if |field| >= 2 && field[0] == '0' && field[1] in "xX" then field[2..] else field;
    var n := LeadingHexDigits(digits);
    assert AllHexDigits(digits) ==> n == |digits| && digits[..n] == digits;
    if n == 0 then None else Some(Value(digits[..n], 16))
  }

  /** At most two hex digits denote at most 255. */
  lemma SmallHexValue(s: string)
    requires AllHexDigits(s) && |s| <= 2
    ensures Value(s, 16) < 256
  {
    if |s| == 2 {
      assert s[..1][..0] == [];
      assert Value(s[..1], 16) == DigitValue(s[0]);
    } else if |s| == 1 {
      assert s[..0] == [];
    }
  }

  /** A field of at most two characters is read as a byte, or as NaN. */
  lemma HexFieldIsByte(field: string)
    requires |field| <= 2
    ensures ParseHex(field).Some? ==> ParseHex(field).value < 256
  {
    var digits := if |field| >= 2 && field[0] == '0' && field[1] in "xX" then field[2..] else field;
    var n := LeadingHexDigits(digits);
    SmallHexValue(digits[..n]);
  }

  /** The maximal runs of decimal digits in `s`, left to right: `s.match(/\d+/g)`. */
  function DigitRuns(s: string): (runs: seq<string>)
    ensures forall k :: 0 <= k < |runs| ==> |runs[k]| > 0 && AllDigits(runs[k])
    decreases |s|
  {
    if s == [] then []
    else if !IsDigit(s[0]) then DigitRuns(s[1..])
    else
      var n := LeadingDigits(s);
      [s[..n]] + DigitRuns(s[n..])
  }

  function Concat(runs: seq<string>): string
  {
    if runs == [] then [] else runs[0] + Concat(runs[1..])
  }

  /** The digits of `s`, in order, with everything else dropped. */
  function DigitsOf(s: string): (d: string)
    ensures AllDigits(d)
  {
    if s == [] then []
    else if IsDigit(s[0]) then [s[0]] + DigitsOf(s[1..])
    else DigitsOf(s[1..])
  }

  lemma {:induction false} DigitsOfAppend(a: string, b: string)
    ensures DigitsOf(a + b) == DigitsOf(a) + DigitsOf(b)
    decreases |a|
  {
    if a == [] {
      assert a + b == b;
    } else {
      assert (a + b)[0] == a[0] && (a + b)[1..] == a[1..] + b;
      DigitsOfAppend(a[1..], b);
    }
  }

  lemma {:induction false} DigitsOfAllDigits(s: string)
    requires AllDigits(s)
    ensures DigitsOf(s) == s
  {
    if s != [] {
      DigitsOfAllDigits(s[1..]);
    }
  }

  /** The runs lose no digit and invent none: together they are the digits of `s`. */
  lemma {:induction false} RunsAreTheDigits(s: string)
    ensures Concat(DigitRuns(s)) == DigitsOf(s)
    decreases |s|
  {
    if s == [] {
    } else if !IsDigit(s[0]) {
      RunsAreTheDigits(s[1..]);
    } else {
      var n := LeadingDigits(s);
      var a, b := s[..n], s[n..];
      assert DigitRuns(s) == [a] + DigitRuns(b);
      ConcatCons(a, DigitRuns(b));
      RunsAreTheDigits(b);
      assert s == a + b;
      DigitsOfAppend(a, b);
      DigitsOfAllDigits(a);
    }
  }

  lemma ConcatCons(run: string, runs: seq<string>)
    ensures Concat([run] + runs) == run + Concat(runs)
  {
    assert ([run] + runs)[1..] == runs;
  }

  /** Characters that are not digits before the first digit do not change the runs. */
  lemma {:induction false} RunsSkipNonDigits(p: string, t: string)
    requires NoDigits(p)
    ensures DigitRuns(p + t) == DigitRuns(t)
    decreases |p|
  {
    if p == [] {
      assert p + t == t;
    } else {
      assert (p + t)[0] == p[0] && (p + t)[1..] == p[1..] + t;
      RunsSkipNonDigits(p[1..], t);
    }
  }

  /** A digit string followed by a non-digit (or nothing) is one whole run. */
  lemma RunsTakeDigits(d: string, t: string)
    requires |d| > 0 && AllDigits(d)
    requires t == [] || !IsDigit(t[0])
    ensures DigitRuns(d + t) == [d] + DigitRuns(t)
  {
    var s := d + t;
    LeadingDigitsOf(d, t);
    assert s[..|d|] == d && s[|d|..] == t;
  }

  lemma {:induction false} LeadingDigitsOf(d: string, t: string)
    requires AllDigits(d)
    requires t == [] || !IsDigit(t[0])
    ensures LeadingDigits(d + t) == |d|
    decreases |d|
  {
    if d != [] {
      assert (d + t)[1..] == d[1..] + t;
      LeadingDigitsOf(d[1..], t);
    }
  }

  /** `parseInt(run)` on a run of decimal digits. */
  function ParseDecimal(run: string): nat
    requires AllDigits(run)
  {
    Value(run, 10)
  }

  /** The channels the glow is tinted with, as the source reads them from the colour string. */
  function GlowChannels(colour: string): (c: Rgb)
    ensures !StartsWith(colour, "#") && (!StartsWith(colour, "rgb") || |DigitRuns(colour)| < 3) ==> c == DefaultRgb
    ensures !StartsWith(colour, "#") ==> c.r.Some? && c.g.Some? && c.b.Some?
  {
    if StartsWith(colour, "#") then
      var hex := colour[1..];
      Rgb(ParseHex(Substring(hex, 0, 2)), ParseHex(Substring(hex, 2, 4)), ParseHex(Substring(hex, 4, 6)))
    else if StartsWith(colour, "rgb") then
      var runs := DigitRuns(colour);
      if |runs| >= 3 then Rgb(Some(ParseDecimal(runs[0])), Some(ParseDecimal(runs[1])), Some(ParseDecimal(runs[2])))
      else DefaultRgb
    else DefaultRgb
  }

  // Writing colours, for the round trips below.

  function DigitChar(v: nat): (c: char)
    requires v < 16
    ensures IsHexDigit(c) && DigitValue(c) == v
    ensures v < 10 ==> IsDigit(c)
  {
    if v < 10 then '0' + v as char else 'A' + (v - 10) as char
  }

  /** Two upper-case hex digits for a channel value. */
  function HexByte(v: nat): (s: string)
    requires v < 256
    ensures |s| == 2 && AllHexDigits(s)
  {
    [DigitChar(v / 16), DigitChar(v % 16)]
  }

  /** The decimal numeral of `n`, without leading zeros. */
  function Decimal(n: nat): (s: string)
    ensures |s| > 0 && AllDigits(s)
  {
    if n < 10 then [DigitChar(n)] else Decimal(n / 10) + [DigitChar(n % 10)]
  }

  lemma {:induction false} DecimalRoundTrip(n: nat)
    ensures ParseDecimal(Decimal(n)) == n
  {
    var s := Decimal(n);
    if n < 10 {
      assert s[..|s| - 1] == [];
      assert Value(s, 10) == Value([], 10) * 10 + DigitValue(s[0]);
    } else {
      assert s[..|s| - 1] == Decimal(n / 10) && s[|s| - 1] == DigitChar(n % 10);
      DecimalRoundTrip(n / 10);
    }
  }

  lemma HexByteRoundTrip(v: nat)
    requires v < 256
    ensures ParseHex(HexByte(v)) == Some(v)
  {
    var s := HexByte(v);
    assert s[..1] == [DigitChar(v / 16)];
    assert Value(s[..1], 16) == v / 16;
    assert s[0] == '0' ==> v / 16 == 0 && s[1] != 'x' && s[1] != 'X';
  }

  /** "#RRGGBB" (with anything after it) is read back as the three bytes it was written from. */
  lemma HexRoundTrip(r: nat, g: nat, b: nat, tail: string)
    requires r < 256 && g < 256 && b < 256
    ensures GlowChannels("#" + HexByte(r) + HexByte(g) + HexByte(b) + tail) == Rgb(Some(r), Some(g), Some(b))
  {
    var s := "#" + HexByte(r) + HexByte(g) + HexByte(b) + tail;
    var hex := s[1..];
    assert Substring(hex, 0, 2) == HexByte(r);
    assert Substring(hex, 2, 4) == HexByte(g);
    assert Substring(hex, 4, 6) == HexByte(b);
    HexByteRoundTrip(r);
    HexByteRoundTrip(g);
    HexByteRoundTrip(b);
  }

  /** Whatever follows the "#", each channel it yields is a byte or NaN: a pair of hex digits never exceeds 255. */
  lemma HexChannelsAreBytes(colour: string)
    requires StartsWith(colour, "#")
    ensures var c := GlowChannels(colour);
            && (c.r.Some? ==> c.r.value < 256)
            && (c.g.Some? ==> c.g.value < 256)
            && (c.b.Some? ==> c.b.value < 256)
  {
    var hex := colour[1..];
    HexFieldIsByte(Substring(hex, 0, 2));
    HexFieldIsByte(Substring(hex, 2, 4));
    HexFieldIsByte(Substring(hex, 4, 6));
  }

  /** After a separator with no digit in it, a numeral is the next run. */
  lemma RunsAfterSeparator(sep: string, d: string, t: string)
    requires |sep| > 0 && NoDigits(sep)
    requires |d| > 0 && AllDigits(d)
    requires t == [] || !IsDigit(t[0])
    ensures DigitRuns(sep + (d + t)) == [d] + DigitRuns(t)
  {
    RunsTakeDigits(d, t);
    RunsSkipNonDigits(sep, d + t);
  }

  /** The runs of "D1 sep1 D2 sep2 D3…" are the three numerals, then the runs of what follows. */
  lemma RunsOfTriple(d1: string, sep1: string, d2: string, sep2: string, d3: string, tail: string)
    requires |sep1| > 0 && NoDigits(sep1) && |sep2| > 0 && NoDigits(sep2)
    requires |d1| > 0 && AllDigits(d1) && |d2| > 0 && AllDigits(d2) && |d3| > 0 && AllDigits(d3)
    requires tail == [] || !IsDigit(tail[0])
    ensures DigitRuns(d1 + (sep1 + (d2 + (sep2 + (d3 + tail))))) == [d1, d2, d3] + DigitRuns(tail)
  {
    var s3 := sep2 + (d3 + tail);
    var s2 := sep1 + (d2 + s3);
    RunsAfterSeparator(sep2, d3, tail);
    assert s3[0] == sep2[0];
    RunsAfterSeparator(sep1, d2, s3);
    assert s2[0] == sep1[0];
    RunsTakeDigits(d1, s2);
    ThreeCons(d1, d2, d3, DigitRuns(tail));
  }

  lemma ThreeCons<T>(a: T, b: T, c: T, rest: seq<T>)
    ensures [a] + ([b] + ([c] + rest)) == [a, b, c] + rest
  {
  }

  /** A string starting with "rgb" takes its channels from its first three digit runs. */
  lemma ChannelsFromRuns(colour: string)
    requires StartsWith(colour, "rgb") && |DigitRuns(colour)| >= 3
    ensures var runs := DigitRuns(colour);
            GlowChannels(colour) == Rgb(Some(ParseDecimal(runs[0])), Some(ParseDecimal(runs[1])), Some(ParseDecimal(runs[2])))
  {
    assert colour[0] == "rgb"[0];
  }

  lemma StartsWithAppend(p: string, q: string, a: string)
    requires StartsWith(p, a)
    ensures StartsWith(p + q, a)
  {
    assert (p + q)[..|a|] == p[..|a|];
  }

  /**
   * A string starting with "rgb" takes its channels from the first three
   * numerals in it, whatever digit-free text separates them.
   */
  lemma FunctionalChannels(prefix: string, d1: string, sep1: string, d2: string, sep2: string, d3: string, tail: string)
    requires StartsWith(prefix, "rgb") && NoDigits(prefix)
    requires |sep1| > 0 && NoDigits(sep1) && |sep2| > 0 && NoDigits(sep2)
    requires |d1| > 0 && AllDigits(d1) && |d2| > 0 && AllDigits(d2) && |d3| > 0 && AllDigits(d3)
    requires tail == [] || !IsDigit(tail[0])
    ensures GlowChannels(prefix + (d1 + (sep1 + (d2 + (sep2 + (d3 + tail))))))
         == Rgb(Some(ParseDecimal(d1)), Some(ParseDecimal(d2)), Some(ParseDecimal(d3)))
  {
    var body := d1 + (sep1 + (d2 + (sep2 + (d3 + tail))));
    StartsWithAppend(prefix, body, "rgb");
    RunsOfTriple(d1, sep1, d2, sep2, d3, tail);
    RunsSkipNonDigits(prefix, body);
    ChannelsFromRuns(prefix + body);
  }

  lemma Regroup(prefix: string, d1: string, sep1: string, d2: string, sep2: string, d3: string, tail: string)
    ensures prefix + d1 + sep1 + d2 + sep2 + d3 + tail == prefix + (d1 + (sep1 + (d2 + (sep2 + (d3 + tail)))))
  {
  }

  /**
   * A functional colour "rgb(R, G, B…", "rgba(R,G,B…" or any other spelling
   * whose separators hold no digit is read back as the three numbers written
   * into it, whatever follows them (an alpha, a closing parenthesis) as long
   * as it does not extend the third number.
   */
  lemma FunctionalRoundTrip(prefix: string, r: nat, sep1: string, g: nat, sep2: string, b: nat, tail: string)
    requires StartsWith(prefix, "rgb") && NoDigits(prefix)
    requires |sep1| > 0 && NoDigits(sep1) && |sep2| > 0 && NoDigits(sep2)
    requires tail == [] || !IsDigit(tail[0])
    ensures GlowChannels(prefix + Decimal(r) + sep1 + Decimal(g) + sep2 + Decimal(b) + tail)
         == Rgb(Some(r), Some(g), Some(b))
  {
    var dr, dg, db := Decimal(r), Decimal(g), Decimal(b);
    Regroup(prefix, dr, sep1, dg, sep2, db, tail);
    FunctionalChannels(prefix, dr, sep1, dg, sep2, db, tail);
    DecimalRoundTrip(r);
    DecimalRoundTrip(g);
    DecimalRoundTrip(b);
  }

  /** The source's two spellings of its default green give the same channels. */
  lemma DefaultSpellingsAgree()
    ensures GlowChannels("#1DB954") == DefaultRgb
    ensures GlowChannels(DefaultColour) == DefaultRgb
  {
    HexDefault();
    FunctionalDefault();
  }

  lemma HexDefault()
    ensures GlowChannels("#1DB954") == DefaultRgb
  {
    assert HexByte(29) == "1D" && HexByte(185) == "B9" && HexByte(84) == "54";
    assert "#1DB954" == "#" + HexByte(29) + HexByte(185) + HexByte(84) + "";
    HexRoundTrip(29, 185, 84, "");
  }

  lemma FunctionalDefault()
    ensures GlowChannels(DefaultColour) == DefaultRgb
  {
    DefaultColourSpelling();
    assert NoDigits(", ");
    FunctionalRoundTrip("rgba(", 29, ", ", 185, ", ", 84, ", 1)");
  }

  lemma DefaultColourSpelling()
    ensures DefaultColour == "rgba(" + Decimal(29) + ", " + Decimal(185) + ", " + Decimal(84) + ", 1)"
  {
    assert Decimal(2) == "2" && Decimal(1) == "1" && Decimal(18) == "18" && Decimal(8) == "8";
    assert Decimal(29) == "29" && Decimal(185) == "185" && Decimal(84) == "84";
    assert "rgba(" + "29" == "rgba(29";
    assert "rgba(29" + ", " == "rgba(29, ";
    assert "rgba(29, " + "185" == "rgba(29, 185";
    assert "rgba(29, 185" + ", " == "rgba(29, 185, ";
    assert "rgba(29, 185, " + "84" == "rgba(29, 185, 84";
    assert "rgba(29, 185, 84" + ", 1)" == DefaultColour;
  }
}
