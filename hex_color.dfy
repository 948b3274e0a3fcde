/**
 * The plugin's `hexToRgb`: an optional `#` followed by exactly six hexadecimal digits, in
 * either case, gives three channel bytes; any other string gives black. The plugin then
 * divides each byte by 255 for Figma's unit-interval colours; the model keeps the bytes.
 */
module HexColor {
  import opened JsText

  /** A colour as three channel values, each a byte for every colour this module produces. */
  datatype Rgb = Rgb(r: nat, g: nat, b: nat)

  const Black := Rgb(0, 0, 0)

  predicate IsByteColor(c: Rgb) {
    c.r < 256 && c.g < 256 && c.b < 256
  }

  predicate AllHexDigits(s: string) {
    forall i :: 0 <= i < |s| ==> IsHexDigit(s[i])
  }

  /** What the pattern `^#?([a-f\d]{2}){3}$` with the `i` flag accepts, stated position by position. */
  predicate IsHexColor(s: string)
    ensures IsHexColor(s) <==> (|s| == 6 || (|s| == 7 && s[0] == '#')) && AllHexDigits(s[|s| - 6..])
  {
    (|s| == 7 && s[0] == '#' && AllHexDigits(s[1..])) || (|s| == 6 && AllHexDigits(s))
  }

  /** The byte written by two hexadecimal digits. */
  function PairValue(hi: char, lo: char): (v: nat)
    requires IsHexDigit(hi) && IsHexDigit(lo)
    ensures v < 256
  {
    HexDigitValue(hi) * 16 + HexDigitValue(lo)
  }

  function HexToRgb(hex: string): (c: Rgb)
    ensures IsByteColor(c)
    ensures !IsHexColor(hex) ==> c == Black
    ensures IsHexColor(hex) ==>
      var d := hex[|hex| - 6..];
      c == Rgb(PairValue(d[0], d[1]), PairValue(d[2], d[3]), PairValue(d[4], d[5]))
  {
    var body := if hex != [] && hex[0] == '#' then hex[1..] else hex;
    assert IsHexColor(hex) <==> |body| == 6 && AllHexDigits(body);
    if |body| == 6 && AllHexDigits(body) then
      Rgb(PairValue(body[0], body[1]), PairValue(body[2], body[3]), PairValue(body[4], body[5]))
    else
      Black
  }

  // ---------------------------------------------------------------------------
  // The inverse direction, used to state the round trip

  function LowerHexDigit(d: nat): (c: char)
    requires d < 16
    ensures IsHexDigit(c) && HexDigitValue(c) == d
  {
    if d < 10 then DigitChar(d) else ('a' as int + d - 10) as char
  }

  function ByteToHex(v: nat): (s: string)
    requires v < 256
    ensures |s| == 2 && AllHexDigits(s) && PairValue(s[0], s[1]) == v
  {
    [LowerHexDigit(v / 16), LowerHexDigit(v % 16)]
  }

  /** `#rrggbb` in lower case. */
  function ToHex(c: Rgb): (s: string)
    requires IsByteColor(c)
    ensures IsHexColor(s)
  {
    "#" + ByteToHex(c.r) + ByteToHex(c.g) + ByteToHex(c.b)
  }

  /** Every byte colour survives printing as `#rrggbb` and reading back. */
  lemma HexRoundTrip(c: Rgb)
    requires IsByteColor(c)
    ensures HexToRgb(ToHex(c)) == c
    ensures HexToRgb(ToHex(c)[1..]) == c
  {
    var s := ToHex(c);
    assert s[1..3] == ByteToHex(c.r) && s[3..5] == ByteToHex(c.g) && s[5..7] == ByteToHex(c.b);
  }

  /** Distinct byte colours have distinct `#rrggbb` spellings that `hexToRgb` tells apart. */
  lemma HexToRgbSeparates(c: Rgb, d: Rgb)
    requires IsByteColor(c) && IsByteColor(d) && c != d
    ensures HexToRgb(ToHex(c)) != HexToRgb(ToHex(d))
  {
    HexRoundTrip(c);
    HexRoundTrip(d);
  }

  // ---------------------------------------------------------------------------
  // Case-insensitivity

  function AsciiUpper(c: char): char {
    if 'a' <= c <= 'z' then (c as int - 32) as char else c
  }

  function ToAsciiUpper(s: string): (r: string)
    ensures |r| == |s| && forall i :: 0 <= i < |s| ==> r[i] == AsciiUpper(s[i])
  {
    seq(|s|, i requires 0 <= i < |s| => AsciiUpper(s[i]))
  }

  /** The `i` flag: upper-casing the input does not change the colour. */
  lemma HexToRgbIgnoresCase(s: string)
    ensures HexToRgb(ToAsciiUpper(s)) == HexToRgb(s)
  {
    var u := ToAsciiUpper(s);
    UpperAllHexDigits(s);
    if |s| == 7 {
      assert u[1..] == ToAsciiUpper(s[1..]);
      UpperAllHexDigits(s[1..]);
    }
    if IsHexColor(s) {
      var d := if |s| == 7 then s[1..] else s;
      var e := if |s| == 7 then u[1..] else u;
      assert forall k :: 0 <= k < 6 ==> e[k] == AsciiUpper(d[k]);
      UpperHexDigit(d[0]);
      UpperHexDigit(d[1]);
      UpperHexDigit(d[2]);
      UpperHexDigit(d[3]);
      UpperHexDigit(d[4]);
      UpperHexDigit(d[5]);
    }
  }

  lemma UpperHexDigit(c: char)
    ensures IsHexDigit(AsciiUpper(c)) == IsHexDigit(c)
    ensures IsHexDigit(c) ==> HexDigitValue(AsciiUpper(c)) == HexDigitValue(c)
  {
  }

  lemma UpperAllHexDigits(s: string)
    ensures AllHexDigits(ToAsciiUpper(s)) == AllHexDigits(s)
  {
    var u := ToAsciiUpper(s);
    forall i | 0 <= i < |s|
      ensures IsHexDigit(u[i]) == IsHexDigit(s[i])
    {
      UpperHexDigit(s[i]);
    }
  }
}
