/**
 * The parts of JavaScript's string semantics that the scripts and the plugin rely on:
 * `String.prototype.trim`, `split` on a one-character separator, `join`, `includes`,
 * `replace` with a string pattern, `padStart`, `String(n)` for integers and the global
 * `parseInt` without a radix. Strings are sequences of Unicode scalar values.
 */
module JsText {
  import opened Wrappers

  /** ECMAScript WhiteSpace and LineTerminator code points (what `trim` and `parseInt` skip). */
  predicate IsJsWhitespace(c: char) {
    var n := c as int;
    n == 0x09 || n == 0x0A || n == 0x0B || n == 0x0C || n == 0x0D || n == 0x20 ||
    n == 0xA0 || n == 0x1680 || (0x2000 <= n <= 0x200A) || n == 0x2028 || n == 0x2029 ||
    n == 0x202F || n == 0x205F || n == 0x3000 || n == 0xFEFF
  }

  predicate AllWhitespace(s: string) {
    forall i :: 0 <= i < |s| ==> IsJsWhitespace(s[i])
  }

  /** Drops leading whitespace; what remains does not start with whitespace. */
  function TrimStart(s: string): (r: string)
    ensures |r| <= |s|
    ensures r != [] ==> !IsJsWhitespace(r[0])
  {
    if s != [] && IsJsWhitespace(s[0]) then TrimStart(s[1..]) else s
  }

  /** What `TrimStart` keeps is a suffix of `s`, and what it drops is all whitespace. */
  lemma {:induction false} TrimStartIsSuffix(s: string)
    ensures forall i :: 0 <= i < |TrimStart(s)| ==> TrimStart(s)[i] == s[|s| - |TrimStart(s)| + i]
    ensures forall i :: 0 <= i < |s| - |TrimStart(s)| ==> IsJsWhitespace(s[i])
    decreases |s|
  {
    if s != [] && IsJsWhitespace(s[0]) {
      TrimStartIsSuffix(s[1..]);
      var r := TrimStart(s);
      assert r == TrimStart(s[1..]);
      forall i | 0 <= i < |r|
        ensures r[i] == s[|s| - |r| + i]
      {
        assert r[i] == s[1..][|s| - 1 - |r| + i];
      }
      forall i | 0 < i < |s| - |r|
        ensures IsJsWhitespace(s[i])
      {
        assert s[i] == s[1..][i - 1];
      }
    }
  }

  /** Drops trailing whitespace; what remains does not end with whitespace. */
  function TrimEnd(s: string): (r: string)
    ensures |r| <= |s|
    ensures r != [] ==> !IsJsWhitespace(r[|r| - 1])
  {
    if s != [] && IsJsWhitespace(s[|s| - 1]) then TrimEnd(s[..|s| - 1]) else s
  }

  /** What `TrimEnd` keeps is a prefix of `s`, and what it drops is all whitespace. */
  lemma {:induction false} TrimEndIsPrefix(s: string)
    ensures forall i :: 0 <= i < |TrimEnd(s)| ==> TrimEnd(s)[i] == s[i]
    ensures forall i :: |TrimEnd(s)| <= i < |s| ==> IsJsWhitespace(s[i])
    decreases |s|
  {
    if s != [] && IsJsWhitespace(s[|s| - 1]) {
      TrimEndIsPrefix(s[..|s| - 1]);
    }
  }

  /** `s.trim()` */
  function Trim(s: string): (r: string)
    ensures r != [] ==> !IsJsWhitespace(r[0]) && !IsJsWhitespace(r[|r| - 1])
  {
    var t := TrimStart(s);
    TrimEndIsPrefix(t);
    TrimEnd(t)
  }

  /** What `trim` keeps is a slice of `s` with only whitespace on either side. */
  lemma TrimIsInnerSlice(s: string)
    ensures exists a, b :: 0 <= a <= b <= |s| && Trim(s) == s[a..b] && AllWhitespace(s[..a]) && AllWhitespace(s[b..])
  {
    var a := |s| - |TrimStart(s)|;
    var b := a + |Trim(s)|;
    TrimKeptSlice(s);
    TrimDroppedStart(s);
    TrimDroppedEnd(s);
    assert Trim(s) == s[a..b] && AllWhitespace(s[..a]) && AllWhitespace(s[b..]);
  }

  lemma TrimKeptSlice(s: string)
    ensures var a := |s| - |TrimStart(s)|;
      a + |Trim(s)| <= |s| && Trim(s) == s[a..a + |Trim(s)|]
  {
    var t := TrimStart(s);
    var a := |s| - |t|;
    var r := TrimEnd(t);
    TrimStartSlice(s);
    TrimEndSlice(t);
    assert Trim(s) == r;
    assert s[a..][..|r|] == s[a..a + |r|];
  }

  lemma TrimDroppedStart(s: string)
    ensures AllWhitespace(s[..|s| - |TrimStart(s)|])
  {
    var a := |s| - |TrimStart(s)|;
    TrimStartIsSuffix(s);
    WhitespaceSlice(s, 0, a);
    assert s[0..a] == s[..a];
  }

  lemma TrimDroppedEnd(s: string)
    ensures var b := |s| - |TrimStart(s)| + |Trim(s)|;
      b <= |s| && AllWhitespace(s[b..])
  {
    var t := TrimStart(s);
    var b := |s| - |t| + |Trim(s)|;
    TrimStartSlice(s);
    TrimEndDropped(t);
    assert Trim(s) == TrimEnd(t);
    assert s[b..] == t[|TrimEnd(t)|..];
  }

  lemma TrimStartSlice(s: string)
    ensures TrimStart(s) == s[|s| - |TrimStart(s)|..]
  {
    TrimStartIsSuffix(s);
  }

  lemma TrimEndSlice(t: string)
    ensures TrimEnd(t) == t[..|TrimEnd(t)|]
  {
    TrimEndIsPrefix(t);
  }

  lemma TrimEndDropped(t: string)
    ensures AllWhitespace(t[|TrimEnd(t)|..])
  {
    TrimEndIsPrefix(t);
    WhitespaceSlice(t, |TrimEnd(t)|, |t|);
    assert t[|TrimEnd(t)|..|t|] == t[|TrimEnd(t)|..];
  }

  lemma WhitespaceSlice(s: string, a: nat, b: nat)
    requires a <= b <= |s|
    requires forall i :: a <= i < b ==> IsJsWhitespace(s[i])
    ensures AllWhitespace(s[a..b])
  {
    forall j | 0 <= j < b - a
      ensures IsJsWhitespace(s[a..b][j])
    {
      assert s[a..b][j] == s[a + j];
    }
  }

  /** Number of occurrences of `c` in `s`. */
  function Occurrences(s: string, c: char): nat {
    if s == [] then 0 else (if s[0] == c then 1 else 0) + Occurrences(s[1..], c)
  }

  /** `parts.join(sep)` for a one-character separator. */
  function Join(parts: seq<string>, sep: char): string {
    if |parts| == 0 then ""
    else if |parts| == 1 then parts[0]
    else parts[0] + [sep] + Join(parts[1..], sep)
  }

  /** `parts.join(sep)` for a string separator. */
  function JoinWith(parts: seq<string>, sep: string): string {
    if |parts| == 0 then ""
    else if |parts| == 1 then parts[0]
    else parts[0] + sep + JoinWith(parts[1..], sep)
  }

  /**
   * `s.split(sep)` for a one-character separator: one more piece than there are separators,
   * no piece contains the separator, and joining the pieces gives `s` back.
   */
  function Split(s: string, sep: char): (r: seq<string>)
    ensures |r| == Occurrences(s, sep) + 1
    ensures forall i, j :: 0 <= i < |r| && 0 <= j < |r[i]| ==> r[i][j] != sep
    ensures Join(r, sep) == s
  {
    if s == [] then [""]
    else if s[0] == sep then
      var t := Split(s[1..], sep);
      assert s == [] + [sep] + s[1..];
      [""] + t
    else
      var t := Split(s[1..], sep);
      var r := [[s[0]] + t[0]] + t[1..];
      assert forall i :: 1 <= i < |r| ==> r[i] == t[i];
      assert Join(r, sep) == [s[0]] + Join(t, sep) by {
        if |t| > 1 {
          assert r[1..] == t[1..];
        }
      }
      r
  }

  /** `s.startsWith(p)` */
  predicate StartsWith(s: string, p: string) {
    |p| <= |s| && s[..|p|] == p
  }

  /** `s.endsWith(p)` */
  predicate EndsWith(s: string, p: string) {
    |p| <= |s| && s[|s| - |p|..] == p
  }

  /** `s.includes(sub)`, computed by scanning positions from the left. */
  predicate Contains(s: string, sub: string)
    decreases |s|
  {
    StartsWith(s, sub) || (s != [] && Contains(s[1..], sub))
  }

  /** A substring found at position `k` makes `includes` true. */
  lemma {:induction false} ContainsAt(s: string, sub: string, k: nat)
    requires k + |sub| <= |s| && s[k..k + |sub|] == sub
    ensures Contains(s, sub)
    decreases k
  {
    if k > 0 {
      assert s[1..][k - 1..k - 1 + |sub|] == s[k..k + |sub|];
      ContainsAt(s[1..], sub, k - 1);
    }
  }

  /** Position of the first occurrence of `pat` in `s` (`indexOf`, with `None` for -1). */
  function IndexOf(s: string, pat: string): (r: Option<nat>)
    ensures r.Some? ==> r.value + |pat| <= |s| && s[r.value..r.value + |pat|] == pat
    ensures r.Some? ==> forall k :: 0 <= k < r.value ==> !StartsWith(s[k..], pat)
    ensures r.None? ==> forall k :: 0 <= k <= |s| ==> !StartsWith(s[k..], pat)
    decreases |s|
  {
    if StartsWith(s, pat) then Some(0)
    else if s == [] then None
    else match IndexOf(s[1..], pat)
      case None =>
        assert forall k :: 1 <= k <= |s| ==> s[k..] == s[1..][k - 1..];
        None
      case Some(i) =>
        assert forall k :: 1 <= k <= i ==> s[k..] == s[1..][k - 1..];
        Some(i + 1)
  }

  /** The first occurrence of `pat` is at `k` when it occurs there and no earlier character starts it. */
  lemma {:induction false} IndexOfAt(s: string, pat: string, k: nat)
    requires pat != [] && k + |pat| <= |s| && s[k..k + |pat|] == pat
    requires forall j :: 0 <= j < k ==> s[j] != pat[0]
    ensures IndexOf(s, pat) == Some(k)
    decreases k
  {
    if k == 0 {
      assert s[..|pat|] == s[0..|pat|];
    } else {
      assert s[..|pat|][0] == s[0];
      var t := s[1..];
      assert t[k - 1..k - 1 + |pat|] == s[k..k + |pat|];
      forall j | 0 <= j < k - 1
        ensures t[j] != pat[0]
      {
        assert t[j] == s[j + 1];
      }
      IndexOfAt(t, pat, k - 1);
    }
  }

  /** `s.replace(pat, rep)` with a string pattern: only the first occurrence is replaced. */
  function ReplaceFirst(s: string, pat: string, rep: string): (r: string)
    ensures IndexOf(s, pat).None? ==> r == s
    ensures IndexOf(s, pat).Some? ==> var i := IndexOf(s, pat).value;
      |r| == |s| - |pat| + |rep| && r[..i] == s[..i] && r[i + |rep|..] == s[i + |pat|..]
  {
    match IndexOf(s, pat)
    case None => s
    case Some(i) => s[..i] + rep + s[i + |pat|..]
  }

  /** `s.padStart(len, [c])` */
  function PadStart(s: string, len: nat, c: char): (r: string)
    ensures |r| == if |s| >= len then |s| else len
    ensures EndsWith(r, s)
    ensures forall i :: 0 <= i < |r| - |s| ==> r[i] == c
  {
    if |s| >= len then s else seq(len - |s|, _ => c) + s
  }

  // ---------------------------------------------------------------------------
  // Digits

  predicate IsDecimalDigit(c: char) { '0' <= c <= '9' }

  predicate IsHexDigit(c: char) {
    IsDecimalDigit(c) || 'a' <= c <= 'f' || 'A' <= c <= 'F'
  }

  /** Value of a hexadecimal (hence also of a decimal) digit, either case. */
  function HexDigitValue(c: char): (v: nat)
    requires IsHexDigit(c)
    ensures v < 16
    ensures IsDecimalDigit(c) <==> v < 10
  {
    if IsDecimalDigit(c) then c as int - '0' as int
    else if 'a' <= c <= 'f' then c as int - 'a' as int + 10
    else c as int - 'A' as int + 10
  }

  function DigitChar(d: nat): (c: char)
    requires d < 10
    ensures IsDecimalDigit(c) && HexDigitValue(c) == d
  {
    ('0' as int + d) as char
  }

  predicate AllDecimalDigits(s: string) {
    forall i :: 0 <= i < |s| ==> IsDecimalDigit(s[i])
  }

  /** `String(n)` for a natural number: decimal digits without leading zeros. */
  function NatToString(n: nat): (r: string)
    ensures r != [] && AllDecimalDigits(r)
    ensures r[0] == '0' ==> n == 0 && r == "0"
    decreases n
  {
    if n < 10 then [DigitChar(n)] else NatToString(n / 10) + [DigitChar(n % 10)]
  }

  /** `String(i)` for an integer. */
  function IntToString(i: int): string {
    if i < 0 then "-" + NatToString(-i) else NatToString(i)
  }

  /** The value of a string of digits in radix 10 or 16, most significant digit first. */
  function DigitsValue(s: string, radix: nat): nat
    requires radix == 10 || radix == 16
    requires forall i :: 0 <= i < |s| ==> IsHexDigit(s[i])
  {
    if s == [] then 0 else DigitsValue(s[..|s| - 1], radix) * radix + HexDigitValue(s[|s| - 1])
  }

  /** Reading the decimal digits of `String(n)` gives `n` back. */
  lemma {:induction false} NatToStringRoundTrip(n: nat)
    ensures DigitsValue(NatToString(n), 10) == n
    decreases n
  {
    if n >= 10 {
      var s := NatToString(n);
      assert s[..|s| - 1] == NatToString(n / 10);
      NatToStringRoundTrip(n / 10);
    }
  }

  /** `String(n)` is injective on the naturals. */
  lemma NatToStringInjective(m: nat, n: nat)
    requires NatToString(m) == NatToString(n)
    ensures m == n
  {
    NatToStringRoundTrip(m);
    NatToStringRoundTrip(n);
  }

  /** Length of the longest prefix of `s` made of digits of the given radix. */
  function DigitPrefixLength(s: string, radix: nat): (k: nat)
    requires radix == 10 || radix == 16
    ensures k <= |s|
    ensures forall i :: 0 <= i < k ==> IsHexDigit(s[i]) && (radix == 10 ==> IsDecimalDigit(s[i]))
    ensures k < |s| ==> !(if radix == 10 then IsDecimalDigit(s[k]) else IsHexDigit(s[k]))
  {
    if s != [] && (if radix == 10 then IsDecimalDigit(s[0]) else IsHexDigit(s[0])) then
      1 + DigitPrefixLength(s[1..], radix)
    else 0
  }

  /** Value of the leading digit run; `None` (JavaScript's NaN) when there are no digits. */
  function ParseDigitPrefix(s: string, radix: nat): Option<nat>
    requires radix == 10 || radix == 16
  {
    var k := DigitPrefixLength(s, radix);
    if k == 0 then None else Some(DigitsValue(s[..k], radix))
  }

  /**
   * The global `parseInt(s)` without a radix: skip leading whitespace, take an optional sign,
   * read hexadecimal after a `0x`/`0X` prefix and decimal otherwise, and stop at the first
   * character that is not a digit. `None` stands for NaN.
   */
  function ParseInt(s: string): (r: Option<int>)
    ensures r.Some? ==> TrimStart(s) != []
    ensures r.Some? && r.value < 0 ==> TrimStart(s)[0] == '-'
  {
    var t := TrimStart(s);
    if t != [] && t[0] == '-' then
      match ParseUnsigned(t[1..])
      case None => None
      case Some(v) => Some(-(v as int))
    else if t != [] && t[0] == '+' then ParseSigned(t[1..])
    else ParseSigned(t)
  }

  /** The unsigned part of `parseInt`: a `0x`/`0X` prefix selects hexadecimal. */
  function ParseUnsigned(u: string): Option<nat> {
    if |u| >= 2 && u[0] == '0' && (u[1] == 'x' || u[1] == 'X') then ParseDigitPrefix(u[2..], 16)
    else ParseDigitPrefix(u, 10)
  }

  function ParseSigned(u: string): Option<int> {
    match ParseUnsigned(u)
    case None => None
    case Some(v) => Some(v)
  }


  /** The decimal digit run at the front of `d + rest` is exactly `d` when `rest` does not continue it. */
  lemma {:induction false} DigitPrefixOfDigits(d: string, rest: string)
    requires AllDecimalDigits(d)
    requires rest == [] || !IsDecimalDigit(rest[0])
    ensures DigitPrefixLength(d + rest, 10) == |d|
    decreases |d|
  {
    if d != [] {
      assert (d + rest)[1..] == d[1..] + rest;
      DigitPrefixOfDigits(d[1..], rest);
    }
  }

  /** `parseInt` reads back a printed natural followed by any text that does not continue the number. */
  lemma ParseIntOfPrinted(n: nat, rest: string)
    requires rest == [] || !IsDecimalDigit(rest[0])
    requires n == 0 && rest != [] ==> rest[0] != 'x' && rest[0] != 'X'
    ensures ParseInt(NatToString(n) + rest) == Some(n)
  {
    var d := NatToString(n);
    var s := d + rest;
    assert s[0] == d[0] && IsDecimalDigit(s[0]);
    assert TrimStart(s) == s;
    var hex := |s| >= 2 && s[0] == '0' && (s[1] == 'x' || s[1] == 'X');
    assert !hex by {
      if |s| >= 2 && s[0] == '0' {
        assert d == "0" && s[1] == rest[0];
      }
    }
    DigitPrefixOfDigits(d, rest);
    assert s[..|d|] == d;
    NatToStringRoundTrip(n);
    assert ParseDigitPrefix(s, 10) == Some(n);
    assert ParseUnsigned(s) == Some(n);
    assert !(s[0] == '-') && !(s[0] == '+');
    assert ParseInt(s) == ParseSigned(s);
  }

}
