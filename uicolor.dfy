/**
  `iDo/Cocoa/UIColor+iDo.swift`: colours from component lists (`rgb`,
  `rgba`) and from hex strings (`init?(hex:)`).

  A colour is its four components as given to `UIColor(red:green:blue:alpha:)`,
  which keeps them as they are. The hex parser is modelled with Swift's
  `UInt64(_:radix:)` written out: an optional sign, then base-16 digits of
  either case, and nothing when the value does not fit in 64 bits. Bit masks
  and shifts on a value below 2^64 are written as division and remainder.
 */
module UIColorHex {
  import opened Wrappers

  /** The components handed to `UIColor(red:green:blue:alpha:)`. */
  datatype Color = Color(red: real, green: real, blue: real, alpha: real)

  /** A value from 0 to 255. */
  type Byte = x: nat | x < 256

  const UInt64Bound: nat := 0x1_0000_0000_0000_0000

  // ----- rgb and rgba -----

  /** A component above 1 is read on the 0–255 scale; one at or below 1 is already a fraction. */
  function Normalise(x: real): real {
    if x > 1.0 then x / 255.0 else x
  }

  /** The `i`th given value, or 0 when fewer were given. */
  function At(values: seq<real>, i: nat): real {
    if i < |values| then values[i] else 0.0
  }

  /** `rgb(_:)`: the first three values, normalised, missing ones 0, always opaque. */
  function Rgb(values: seq<real>): (c: Color)
    ensures c.alpha == 1.0
    ensures (forall i :: 0 <= i < |values| ==> 0.0 <= values[i] <= 255.0) ==>
      (0.0 <= c.red <= 1.0 && 0.0 <= c.green <= 1.0 && 0.0 <= c.blue <= 1.0)
  {
    Color(Normalise(At(values, 0)), Normalise(At(values, 1)), Normalise(At(values, 2)), 1.0)
  }

  /** `rgba(_:)`: the first four values, normalised, missing ones 0 — alpha included. */
  function Rgba(values: seq<real>): (c: Color)
    ensures |values| < 4 ==> c.alpha == 0.0
    ensures (forall i :: 0 <= i < |values| ==> 0.0 <= values[i] <= 255.0) ==>
      (0.0 <= c.red <= 1.0 && 0.0 <= c.green <= 1.0 && 0.0 <= c.blue <= 1.0 && 0.0 <= c.alpha <= 1.0)
  {
    Color(Normalise(At(values, 0)), Normalise(At(values, 1)), Normalise(At(values, 2)), Normalise(At(values, 3)))
  }

  /** Normalising maps the 0–255 scale into 0–1, keeps fractions, and can be undone for values above 1. */
  lemma NormaliseRange(x: real)
    ensures 0.0 <= x <= 255.0 ==> 0.0 <= Normalise(x) <= 1.0
    ensures x <= 1.0 ==> Normalise(x) == x
    ensures x > 1.0 ==> Normalise(x) * 255.0 == x
  {
  }

  /** `rgb` is `rgba` with the first three values, zeros for the missing, and an alpha of 1. */
  lemma RgbIsOpaqueRgba(values: seq<real>)
    ensures Rgb(values) == Rgba([At(values, 0), At(values, 1), At(values, 2), 1.0])
  {
  }

  /** Values past the ones read change nothing. */
  lemma ExtraValuesIgnored(values: seq<real>, extra: seq<real>)
    ensures |values| >= 3 ==> Rgb(values + extra) == Rgb(values)
    ensures |values| >= 4 ==> Rgba(values + extra) == Rgba(values)
  {
  }

  /** Without a fourth value `rgba` is fully transparent, whatever the others. */
  lemma RgbaWithoutAlphaIsTransparent(values: seq<real>)
    requires |values| < 4
    ensures Rgba(values).alpha == 0.0
  {
  }

  /** 1 is read as a fraction, so `rgb(1, 1, 1)` is white while `rgb(2, 2, 2)` is nearly black. */
  lemma OneIsAFraction()
    ensures Rgb([1.0, 1.0, 1.0]) == Color(1.0, 1.0, 1.0, 1.0)
    ensures Rgb([2.0, 2.0, 2.0]).red < 0.01
  {
  }

  // ----- cleaning the hex string -----

  /** ASCII upper-casing of one character. */
  function Upper(c: char): char {
    if 'a' <= c <= 'z' then (c as int - 32) as char else c
  }

  /** `uppercased()` on ASCII text. */
  function Uppercased(s: string): string {
    seq(|s|, i requires 0 <= i < |s| => Upper(s[i]))
  }

  /** `replacingOccurrences(of: pattern, with: "")`: a single left-to-right pass deleting non-overlapping occurrences. */
  function RemoveAll(s: string, pattern: string): string
    requires |pattern| > 0
    decreases |s|
  {
    if |s| == 0 then ""
    else if pattern <= s then RemoveAll(s[|pattern|..], pattern)
    else [s[0]] + RemoveAll(s[1..], pattern)
  }

  /** The string `init?(hex:)` parses: upper-cased, every "0X" and then every "#" deleted. */
  function Cleaned(hex: string): (s: string)
    ensures '#' !in s
  {
    RemoveCharLeavesNone(RemoveAll(Uppercased(hex), "0X"), '#');
    RemoveAll(RemoveAll(Uppercased(hex), "0X"), "#")
  }

  /** Deleting a one-character pattern leaves none of that character, and nothing else goes. */
  lemma {:induction false} RemoveCharLeavesNone(s: string, c: char)
    ensures c !in RemoveAll(s, [c])
    ensures forall d :: d != c ==> multiset(RemoveAll(s, [c]))[d] == multiset(s)[d]
    decreases |s|
  {
    if |s| > 0 {
      RemoveCharLeavesNone(s[1..], c);
      assert s == [s[0]] + s[1..];
      if [c] <= s {
        assert s[0] == c;
      }
    }
  }

  /** A string without some character of the pattern holds no occurrence and is left as it is. */
  lemma {:induction false} RemoveAbsent(s: string, pattern: string, c: char)
    requires |pattern| > 0 && c in pattern && c !in s
    ensures RemoveAll(s, pattern) == s
    decreases |s|
  {
    if |s| > 0 {
      RemoveAbsent(s[1..], pattern, c);
      assert s == [s[0]] + s[1..];
    }
  }

  /** A single pass can build a new "0X" out of the pieces around a "#": "0#X1" cleans to "0X1". */
  lemma CleaningCanLeaveAPrefix()
    ensures Cleaned("0#X1") == "0X1"
  {
    assert Uppercased("0#X1") == "0#X1";
    assert RemoveAll("0#X1", "0X") == "0#X1" by {
      assert "0#X1"[1] == '#' && "0#X1"[1..] == "#X1";
      assert "#X1"[1..] == "X1" && "X1"[1..] == "1" && "1"[1..] == "";
      assert "0X"[0] == '0';
    }
    assert RemoveAll("0#X1", "#") == "0X1" by {
      assert "0#X1"[0] == '0' && "0#X1"[1..] == "#X1";
      assert "#X1"[..1] == "#" && "#X1"[1..] == "X1" && "X1"[1..] == "1" && "1"[1..] == "";
    }
  }

  // ----- UInt64(_:radix: 16) -----

  predicate IsHexDigit(c: char) {
    '0' <= c <= '9' || 'A' <= c <= 'F' || 'a' <= c <= 'f'
  }

  predicate AllHex(s: string) {
    forall i :: 0 <= i < |s| ==> IsHexDigit(s[i])
  }

  function DigitValue(c: char): (d: nat)
    requires IsHexDigit(c)
    ensures d < 16
  {
    if '0' <= c <= '9' then c as int - '0' as int
    else if 'A' <= c <= 'F' then c as int - 'A' as int + 10
    else c as int - 'a' as int + 10
  }

  /** The number the digits spell in base 16, most significant first. */
  function HexValue(s: string): nat
    requires AllHex(s)
  {
    if |s| == 0 then 0 else HexValue(s[..|s| - 1]) * 16 + DigitValue(s[|s| - 1])
  }

  /**
    `UInt64(s, radix: 16)`: an optional "+" or "-", then at least one digit;
    the value must fit in 64 bits, and after "-" only zero does.
   */
  function ParseUInt64(s: string): (r: Option<nat>)
    ensures r.Some? ==> r.value < UInt64Bound
    ensures r.Some? ==> |s| > 0
  {
    var signed := |s| > 0 && (s[0] == '+' || s[0] == '-');
    var digits := if signed then s[1..] else s;
    if |digits| == 0 || !AllHex(digits) then None
    else if signed && s[0] == '-' then (if HexValue(digits) == 0 then Some(0) else None)
    else if HexValue(digits) < UInt64Bound then Some(HexValue(digits))
    else None
  }

  /** The colour a parsed value gives: red, green and blue from bits 16–23, 8–15 and 0–7, alpha from bits 24–31 only for a long string. */
  function ColorOfValue(v: nat, long: bool): Color {
    var a := if long then (v / 0x100_0000) % 256 else 255;
    Color(((v / 0x1_0000) % 256) as real / 255.0, ((v / 0x100) % 256) as real / 255.0,
          (v % 256) as real / 255.0, a as real / 255.0)
  }

  /** `init?(hex:)`: nothing when the cleaned string is not a 64-bit base-16 number; otherwise the colour of its low 32 bits. */
  function FromHex(hex: string): (c: Option<Color>)
    ensures c.Some? <==> ParseUInt64(Cleaned(hex)).Some?
    ensures c.Some? ==> |Cleaned(hex)| <= 6 ==> c.value.alpha == 1.0
    ensures c.Some? ==> (0.0 <= c.value.red <= 1.0 && 0.0 <= c.value.green <= 1.0 &&
                         0.0 <= c.value.blue <= 1.0 && 0.0 <= c.value.alpha <= 1.0)
  {
    var value := Cleaned(hex);
    match ParseUInt64(value)
    case Some(v) => Some(ColorOfValue(v, |value| > 6))
    case None => None
  }

  /** "FFF" spells 0xFFF. */
  lemma HexValueFFF()
    ensures AllHex("FFF") && HexValue("FFF") == 0xFFF
  {
    assert "F"[..0] == "" && "F"[0] == 'F';
    assert HexValue("F") == 15;
    assert "FF"[..1] == "F" && "FF"[1] == 'F';
    assert HexValue("FF") == 255;
    assert "FFF"[..2] == "FF" && "FFF"[2] == 'F';
  }

  /** "#FFF" cleans to "FFF". */
  lemma CleanFFF()
    ensures Cleaned("#FFF") == "FFF"
  {
    assert UpperHex("FFF");
    CleanedDigits("FFF");
    assert "#FFF" == "#" + "FFF";
  }

  /** "FFF" parses to 0xFFF. */
  lemma ParseFFF()
    ensures ParseUInt64("FFF") == Some(0xFFF)
  {
    HexValueFFF();
    assert "FFF"[0] == 'F';
    assert 0xFFF < UInt64Bound;
  }

  /** Three hex digits are not shorthand: "#FFF" is 0x000FFF, a blue with a little green. */
  lemma ThreeDigitsAreNotShorthand()
    ensures FromHex("#FFF") == Some(Color(0.0, 15.0 / 255.0, 1.0, 1.0))
  {
    CleanFFF();
    ParseFFF();
    assert |"FFF"| == 3;
    assert (0xFFF / 0x1_0000) % 256 == 0 && (0xFFF / 0x100) % 256 == 15 && 0xFFF % 256 == 255;
  }

  // ----- the formatter the parser inverts -----

  function HexChar(d: nat): (c: char)
    requires d < 16
    ensures IsHexDigit(c) && DigitValue(c) == d && 'a' > c
  {
    if d < 10 then ('0' as int + d) as char else ('A' as int + d - 10) as char
  }

  /** A byte as two upper-case hex digits. */
  function Hex2(b: Byte): (s: string)
    ensures |s| == 2 && AllHex(s)
  {
    [HexChar(b / 16), HexChar(b % 16)]
  }

  /** "RRGGBB". */
  function Hex6(r: Byte, g: Byte, b: Byte): string {
    Hex2(r) + Hex2(g) + Hex2(b)
  }

  /** "AARRGGBB". */
  function Hex8(a: Byte, r: Byte, g: Byte, b: Byte): string {
    Hex2(a) + Hex6(r, g, b)
  }

  /** Upper-case hex digits: what the formatter writes. */
  predicate UpperHex(s: string) {
    forall i :: 0 <= i < |s| ==> '0' <= s[i] <= '9' || 'A' <= s[i] <= 'F'
  }

  /** Two more digits shift the value up a byte. */
  lemma HexValueAppend2(s: string, b: Byte)
    requires AllHex(s)
    ensures AllHex(s + Hex2(b)) && HexValue(s + Hex2(b)) == HexValue(s) * 256 + b
  {
    var t := s + Hex2(b);
    assert t[..|t| - 1] == s + [HexChar(b / 16)];
    assert (s + [HexChar(b / 16)])[..|s|] == s;
  }

  /** The formatted digits spell the bytes back, most significant first. */
  lemma HexValueOfHex8(a: Byte, r: Byte, g: Byte, b: Byte)
    ensures AllHex(Hex6(r, g, b)) && HexValue(Hex6(r, g, b)) == (r * 256 + g) * 256 + b
    ensures AllHex(Hex8(a, r, g, b)) && HexValue(Hex8(a, r, g, b)) == ((a * 256 + r) * 256 + g) * 256 + b
  {
    HexValueAppend2("", r);
    assert "" + Hex2(r) == Hex2(r);
    HexValueAppend2(Hex2(r), g);
    HexValueAppend2(Hex2(r) + Hex2(g), b);
    HexValueAppend2(Hex2(a), r);
    HexValueAppend2("", a);
    assert "" + Hex2(a) == Hex2(a);
    HexValueAppend2(Hex2(a) + Hex2(r), g);
    HexValueAppend2(Hex2(a) + Hex2(r) + Hex2(g), b);
    assert Hex8(a, r, g, b) == Hex2(a) + Hex2(r) + Hex2(g) + Hex2(b);
  }

  /** Upper-case digits come through the cleaning untouched, with or without a "#" or "0x" in front. */
  lemma {:induction false} CleanedDigits(h: string)
    requires UpperHex(h)
    ensures Cleaned(h) == h && Cleaned("#" + h) == h && Cleaned("0x" + h) == h
  {
    assert Uppercased(h) == h;
    assert Uppercased("#" + h) == "#" + h;
    assert Uppercased("0x" + h) == "0X" + h;
    assert 'X' !in h && '#' !in h;
    RemoveAbsent(h, "0X", 'X');
    RemoveAbsent(h, "#", '#');
    RemoveAbsent("#" + h, "0X", 'X');
    assert "0X" <= "0X" + h && ("0X" + h)[2..] == h;
    assert "#" <= "#" + h && ("#" + h)[1..] == h;
  }

  /** What the formatter writes is upper-case hex. */
  lemma Hex8IsUpper(a: Byte, r: Byte, g: Byte, b: Byte)
    ensures UpperHex(Hex6(r, g, b)) && UpperHex(Hex8(a, r, g, b))
  {
  }

  /** Splitting a packed value back into its bytes. */
  lemma Unpack(a: nat, r: Byte, g: Byte, b: Byte)
    ensures var v := ((a * 256 + r) * 256 + g) * 256 + b;
      && (v / 0x1_0000) % 256 == r && (v / 0x100) % 256 == g && v % 256 == b
      && (v / 0x100_0000) == a
  {
    var v := ((a * 256 + r) * 256 + g) * 256 + b;
    var lo := g * 256 + b;
    assert v == (a * 256 + r) * 0x1_0000 + lo && lo < 0x1_0000;
    assert v / 0x1_0000 == a * 256 + r;
    assert v == (a * 0x100_00 + r * 256 + g) * 256 + b;
    assert v / 0x100 == a * 0x1_0000 + r * 256 + g;
    assert v == a * 0x100_0000 + (r * 0x1_0000 + lo) && r * 0x1_0000 + lo < 0x100_0000;
  }

  /** The colour of a packed value is its bytes over 255, alpha included only for a long string. */
  lemma ColorOfPacked(a: Byte, r: Byte, g: Byte, b: Byte, long: bool)
    ensures var v := ((a * 256 + r) * 256 + g) * 256 + b;
      ColorOfValue(v, long) == Color(r as real / 255.0, g as real / 255.0, b as real / 255.0,
                                     if long then a as real / 255.0 else 1.0)
  {
    Unpack(a, r, g, b);
  }

  /** Round trip: "#RRGGBB", "0xRRGGBB" and "RRGGBB" all give the three bytes over 255, opaque. */
  lemma RoundTripRgb(r: Byte, g: Byte, b: Byte)
    ensures var c := Some(Color(r as real / 255.0, g as real / 255.0, b as real / 255.0, 1.0));
      FromHex("#" + Hex6(r, g, b)) == c && FromHex("0x" + Hex6(r, g, b)) == c && FromHex(Hex6(r, g, b)) == c
  {
    Hex8IsUpper(0, r, g, b);
    CleanedDigits(Hex6(r, g, b));
    HexValueOfHex8(0, r, g, b);
    ColorOfPacked(0, r, g, b, false);
    assert |Hex6(r, g, b)| == 6;
  }

  /** The eight formatted digits parse to the packed value. */
  lemma ParseHex8(a: Byte, r: Byte, g: Byte, b: Byte)
    ensures var v := ((a * 256 + r) * 256 + g) * 256 + b;
      Cleaned("#" + Hex8(a, r, g, b)) == Hex8(a, r, g, b) && ParseUInt64(Hex8(a, r, g, b)) == Some(v)
  {
    Hex8IsUpper(a, r, g, b);
    CleanedDigits(Hex8(a, r, g, b));
    HexValueOfHex8(a, r, g, b);
    var v := ((a * 256 + r) * 256 + g) * 256 + b;
    assert a * 256 + r <= 0xFFFF;
    assert (a * 256 + r) * 256 + g <= 0xFF_FFFF;
    assert v < UInt64Bound;
  }

  /** Round trip with alpha: "#AARRGGBB" gives all four bytes over 255. */
  lemma RoundTripRgba(a: Byte, r: Byte, g: Byte, b: Byte)
    ensures FromHex("#" + Hex8(a, r, g, b)) == Some(Color(r as real / 255.0, g as real / 255.0, b as real / 255.0, a as real / 255.0))
  {
    ParseHex8(a, r, g, b);
    ColorOfPacked(a, r, g, b, true);
    assert |Hex8(a, r, g, b)| == 8;
  }

  /** The hex form agrees with `rgb` on bytes, except where `rgb` reads a 1 as a fraction. */
  lemma HexAgreesWithRgb(r: Byte, g: Byte, b: Byte)
    requires r != 1 && g != 1 && b != 1
    ensures FromHex("#" + Hex6(r, g, b)) == Some(Rgb([r as real, g as real, b as real]))
  {
    RoundTripRgb(r, g, b);
  }
}
