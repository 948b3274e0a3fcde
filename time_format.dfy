/** `formatTime`: seconds shown as minutes, a colon, and the seconds padded to two digits. */
module TimeFormat {
  import opened Wrappers
  import opened JsText

  /** JavaScript's `%`: the remainder takes the sign of the dividend. */
  function JsRemainder(a: int, n: nat): (r: int)
    requires n > 0
    ensures a >= 0 ==> 0 <= r < n && r == a % n
    ensures a < 0 ==> -(n as int) < r <= 0 && r == -((-a) % n)
  {
    if a >= 0 then a % n else -((-a) % n)
  }

  /**
   * `Math.floor(seconds / 60)`, a colon, then `String(seconds % 60).padStart(2, '0')`.
   * Dafny's `/` by a positive divisor already rounds down, as `Math.floor` does.
   */
  function FormatTime(seconds: int): (r: string)
    ensures seconds >= 0 ==> ParseTime(r) == Some(seconds)
  {
    if seconds < 0 then IntToString(seconds / 60) + ":" + PadStart(IntToString(JsRemainder(seconds, 60)), 2, '0')
    else
      var m := NatToString(seconds / 60);
      var p := PadStart(NatToString(seconds % 60), 2, '0');
      SecondsField(seconds % 60);
      ParseTimeOf(m, p);
      NatToStringRoundTrip(seconds / 60);
      m + ":" + p
  }

  /** Reads "M:SS" back: digits, a colon, exactly two digits below 60. `None` for anything else. */
  function ParseTime(t: string): (r: Option<nat>)
    ensures r.Some? ==> exists k :: 0 < k < |t| && t[k] == ':'
  {
    match IndexOf(t, ":")
    case None => None
    case Some(k) =>
      assert t[k..k + 1] == ":";
      ParseFields(t[..k], t[k + 1..])
  }

  /** The minutes before the colon and the seconds after it. */
  function ParseFields(m: string, sec: string): Option<nat> {
    if m != [] && AllDecimalDigits(m) && |sec| == 2 && AllDecimalDigits(sec) && DigitsValue(sec, 10) < 60
    then Some(60 * DigitsValue(m, 10) + DigitsValue(sec, 10))
    else None
  }

  /** The seconds field of a non-negative time: two digits whose value is the remainder. */
  lemma SecondsField(r: nat)
    requires r < 60
    ensures var p := PadStart(NatToString(r), 2, '0');
      |p| == 2 && AllDecimalDigits(p) && DigitsValue(p, 10) == r
  {
    var p := PadStart(NatToString(r), 2, '0');
    var hi := if r < 10 then '0' else DigitChar(r / 10);
    if r < 10 {
      assert NatToString(r) == [DigitChar(r)];
    } else {
      assert NatToString(r) == NatToString(r / 10) + [DigitChar(r % 10)];
      assert NatToString(r / 10) == [DigitChar(r / 10)];
    }
    assert p == [hi, DigitChar(r % 10)];
    assert p[..1] == [hi] && [hi][..0] == [];
    assert DigitsValue([hi], 10) == HexDigitValue(hi);
  }

  /** The first colon of `m + ":" + rest` is the one after `m` when `m` is all digits. */
  lemma ColonAfterDigits(m: string, rest: string)
    requires AllDecimalDigits(m)
    ensures IndexOf(m + ":" + rest, ":") == Some(|m|)
  {
    var t := m + ":" + rest;
    forall j | 0 <= j < |m|
      ensures t[j] != ':'
    {
      assert t[j] == m[j];
    }
    assert t[|m|..|m| + 1] == ":";
    IndexOfAt(t, ":", |m|);
  }

  /** `ParseTime` on a well-formed "M:SS". */
  lemma ParseTimeOf(m: string, p: string)
    requires m != [] && AllDecimalDigits(m)
    requires |p| == 2 && AllDecimalDigits(p) && DigitsValue(p, 10) < 60
    ensures ParseTime(m + ":" + p) == Some(60 * DigitsValue(m, 10) + DigitsValue(p, 10))
  {
    var t := m + ":" + p;
    ColonAfterDigits(m, p);
    assert t[..|m|] == m;
    assert t[|m| + 1..] == p;
    assert ParseTime(t) == ParseFields(m, p);
    ParseFieldsOf(m, p);
  }

  lemma ParseFieldsOf(m: string, p: string)
    requires m != [] && AllDecimalDigits(m)
    requires |p| == 2 && AllDecimalDigits(p) && DigitsValue(p, 10) < 60
    ensures ParseFields(m, p) == Some(60 * DigitsValue(m, 10) + DigitsValue(p, 10))
  {
  }

  /** Every non-negative time reads back as itself. */
  lemma FormatTimeRoundTrip(seconds: nat)
    ensures ParseTime(FormatTime(seconds)) == Some(seconds)
  {
    var m := NatToString(seconds / 60);
    var p := PadStart(NatToString(seconds % 60), 2, '0');
    assert FormatTime(seconds) == m + ":" + p;
    SecondsField(seconds % 60);
    ParseTimeOf(m, p);
    NatToStringRoundTrip(seconds / 60);
  }

  /** Two different non-negative times are never shown the same way. */
  lemma FormatTimeInjective(a: nat, b: nat)
    requires FormatTime(a) == FormatTime(b)
    ensures a == b
  {
    FormatTimeRoundTrip(a);
    FormatTimeRoundTrip(b);
  }

  /** The exam's starting value is shown as 14:34. */
  lemma ExamStartShown()
    ensures FormatTime(874) == "14:34"
  {
    assert 874 / 60 == 14 && 874 % 60 == 34;
    assert NatToString(14) == "14" && NatToString(34) == "34";
    assert PadStart("34", 2, '0') == "34";
  }

  /** A negative input keeps JavaScript's signs: minus five seconds shows as "-1:-5". */
  lemma NegativeInput()
    ensures FormatTime(-5) == "-1:-5"
  {
    assert -5 / 60 == -1 && JsRemainder(-5, 60) == -5;
    assert IntToString(-1) == "-1" by {
      assert NatToString(1) == "1";
    }
    assert IntToString(-5) == "-5" by {
      assert NatToString(5) == "5";
    }
  }
}
