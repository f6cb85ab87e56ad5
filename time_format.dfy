/**
 * `formatTime`, which both scripts define: elapsed seconds as `H:MM:SS`
 * from one hour on and as `M:SS` below it, the minute and second fields
 * padded to two digits. Times are whole seconds (the source floors them).
 *
 * The overlay's copy first maps 0, `undefined` and `NaN` to "0:00"; the
 * content script's copy has no such guard. `ParseClock` reads a display
 * string back into seconds and is the inverse the formatter is proved
 * against.
 */
module TimeFormat {
  import opened Wrappers
  import opened Strings

  /** A time as a JavaScript value may carry it: whole seconds, `NaN`, or `undefined`. */
  datatype TimeValue = Seconds(s: nat) | NotANumber | Undefined

  /** `n.toString().padStart(2, '0')`. */
  function Pad2(n: nat): string {
    PadStart(NatToString(n), 2, '0')
  }

  /** The display string for a split of a time into hours, minutes and seconds. */
  function ClockString(hrs: nat, mins: nat, secs: nat): string {
    if hrs > 0 then NatToString(hrs) + ":" + Pad2(mins) + ":" + Pad2(secs)
    else NatToString(mins) + ":" + Pad2(secs)
  }

  /** The content script's `formatTime`. */
  function FormatTime(seconds: nat): string {
    var hrs := seconds / 3600;
    var mins := (seconds % 3600) / 60;
    var secs := seconds % 60;
    ClockString(hrs, mins, secs)
  }

  /**
   * The overlay's `formatTime`: a falsy or `NaN` argument gives "0:00",
   * which is what the unguarded formatter gives for zero seconds, so the
   * guarded one is the unguarded one with every invalid time read as 0.
   */
  function FormatTimeGuarded(t: TimeValue): (r: string)
    ensures r == FormatTime(if t.Seconds? then t.s else 0)
    ensures !t.Seconds? || t.s == 0 ==> r == "0:00"
  {
    ZeroFormat();
    if !t.Seconds? || t.s == 0 then "0:00" else FormatTime(t.s)
  }

  lemma ZeroFormat()
    ensures FormatTime(0) == "0:00"
  {
    assert NatToString(0) == "0";
    assert Pad2(0) == "00";
  }

  // ------------------------------------------------------------- parsing

  /** A two-digit minute or second field, 00 to 59. */
  predicate IsSexagesimalField(f: string) {
    |f| == 2 && AllDigits(f) && DigitsValue(f) < 60
  }

  /**
   * Reads `M:SS` or `H:MM:SS` (no leading zero in the first field, an
   * hour field that is not 0) back into seconds; anything else is `None`.
   * It is a left inverse of `FormatTime`, not a test that a string is the
   * formatter's output: it also reads `M:SS` with 60 or more minutes
   * ("75:00" gives 4500 seconds, which the formatter writes "1:15:00").
   */
  function ParseClock(t: string): Option<nat> {
    var f := Split(t, ':');
    if |f| == 2 && IsNumeral(f[0]) && IsSexagesimalField(f[1]) then
      Some(60 * DigitsValue(f[0]) + DigitsValue(f[1]))
    else if |f| == 3 && IsNumeral(f[0]) && DigitsValue(f[0]) > 0
            && IsSexagesimalField(f[1]) && IsSexagesimalField(f[2]) then
      Some(3600 * DigitsValue(f[0]) + 60 * DigitsValue(f[1]) + DigitsValue(f[2]))
    else None
  }

  /** A number below 60 padded to two digits is a field that reads back as that number. */
  lemma {:induction false} Pad2Field(n: nat)
    requires n < 60
    ensures IsSexagesimalField(Pad2(n)) && DigitsValue(Pad2(n)) == n
    ensures ':' !in Pad2(n)
  {
    var p := Pad2(n);
    if n < 10 {
      assert NatToString(n) == [DigitChar(n)];
      assert p == ['0', DigitChar(n)];
      TwoDigitsValue(0, n);
    } else {
      NatToStringTwoDigits(n);
      assert p == [DigitChar(n / 10), DigitChar(n % 10)];
      TwoDigitsValue(n / 10, n % 10);
    }
  }

  /** Two digit characters read as tens and units. */
  lemma TwoDigitsValue(a: nat, b: nat)
    requires a < 10 && b < 10
    ensures DigitsValue([DigitChar(a), DigitChar(b)]) == 10 * a + b
  {
    var x, y := DigitChar(a), DigitChar(b);
    var p := [x, y];
    assert p[..1] == [x] && p[1] == y;
    assert [x][..0] == [];
    assert DigitsValue([x]) == DigitValue(x) == a;
    assert DigitsValue(p) == 10 * DigitsValue([x]) + DigitValue(y);
  }

  /** The two fields of a clock string without hours. */
  lemma ClockStringFieldsShort(mins: nat, secs: nat)
    requires secs < 60
    ensures var f := Split(ClockString(0, mins, secs), ':');
      |f| == 2 && IsNumeral(f[0]) && DigitsValue(f[0]) == mins
      && IsSexagesimalField(f[1]) && DigitsValue(f[1]) == secs
  {
    Pad2Field(secs);
    NumeralExcludes(NatToString(mins), ':');
    SplitTwo(NatToString(mins), Pad2(secs), ':');
    NatToStringValue(mins);
  }

  /** The three fields of a clock string with hours. */
  lemma ClockStringFieldsLong(hrs: nat, mins: nat, secs: nat)
    requires hrs > 0 && mins < 60 && secs < 60
    ensures var f := Split(ClockString(hrs, mins, secs), ':');
      |f| == 3 && IsNumeral(f[0]) && DigitsValue(f[0]) == hrs
      && IsSexagesimalField(f[1]) && DigitsValue(f[1]) == mins
      && IsSexagesimalField(f[2]) && DigitsValue(f[2]) == secs
  {
    Pad2Field(mins);
    Pad2Field(secs);
    NumeralExcludes(NatToString(hrs), ':');
    SplitThree(NatToString(hrs), Pad2(mins), Pad2(secs), ':');
    NatToStringValue(hrs);
  }

  lemma ClockArithmetic(seconds: nat)
    ensures (seconds % 3600) / 60 < 60
    ensures seconds < 3600 ==> (seconds % 3600) / 60 == seconds / 60
    ensures 60 * (seconds / 60) + seconds % 60 == seconds
    ensures 3600 * (seconds / 3600) + 60 * ((seconds % 3600) / 60) + seconds % 60 == seconds
  {
    var h := seconds / 3600;
    var r := seconds % 3600;
    var m := r / 60;
    var s := r % 60;
    assert seconds == 3600 * h + r;
    assert r == 60 * m + s;
    assert seconds == 60 * (60 * h + m) + s;
    DivModSixty(seconds, 60 * h + m, s);
  }

  lemma DivModSixty(n: nat, q: nat, s: nat)
    requires s < 60 && n == 60 * q + s
    ensures n % 60 == s && n / 60 == q
  {
  }

  /**
   * The fields of the display string below an hour: `M:SS`, M the whole
   * minutes, SS the remaining seconds as two digits between 00 and 59.
   */
  lemma FormatTimeFieldsBelowAnHour(seconds: nat)
    requires seconds < 3600
    ensures var f := Split(FormatTime(seconds), ':');
      |f| == 2 && IsNumeral(f[0]) && DigitsValue(f[0]) == seconds / 60
      && IsSexagesimalField(f[1]) && DigitsValue(f[1]) == seconds % 60
  {
    ClockArithmetic(seconds);
    ClockStringFieldsShort(seconds / 60, seconds % 60);
  }

  /**
   * The fields of the display string from an hour on: `H:MM:SS`, H the
   * whole hours, MM and SS two-digit fields between 00 and 59.
   */
  lemma FormatTimeFieldsFromAnHour(seconds: nat)
    requires seconds >= 3600
    ensures var f := Split(FormatTime(seconds), ':');
      |f| == 3 && IsNumeral(f[0]) && DigitsValue(f[0]) == seconds / 3600
      && IsSexagesimalField(f[1]) && DigitsValue(f[1]) == (seconds % 3600) / 60
      && IsSexagesimalField(f[2]) && DigitsValue(f[2]) == seconds % 60
  {
    ClockArithmetic(seconds);
    ClockStringFieldsLong(seconds / 3600, (seconds % 3600) / 60, seconds % 60);
  }

  /** Reading the display string back gives the number of seconds it was made from. */
  lemma FormatTimeRoundTrip(seconds: nat)
    ensures ParseClock(FormatTime(seconds)) == Some(seconds)
  {
    ClockArithmetic(seconds);
    var f := Split(FormatTime(seconds), ':');
    if seconds < 3600 {
      FormatTimeFieldsBelowAnHour(seconds);
      var m, s := DigitsValue(f[0]), DigitsValue(f[1]);
      assert 60 * m + s == seconds;
    } else {
      FormatTimeFieldsFromAnHour(seconds);
      var h, m, s := DigitsValue(f[0]), DigitsValue(f[1]), DigitsValue(f[2]);
      assert h > 0;
      assert 3600 * h + 60 * m + s == seconds;
    }
  }

  /** Different times never share a display string. */
  lemma FormatTimeInjective(a: nat, b: nat)
    requires FormatTime(a) == FormatTime(b)
    ensures a == b
  {
    FormatTimeRoundTrip(a);
    FormatTimeRoundTrip(b);
  }

  /** For every time the content script can send, the two copies of `formatTime` agree. */
  lemma FormatTimesAgree(seconds: nat)
    ensures FormatTimeGuarded(Seconds(seconds)) == FormatTime(seconds)
  {
  }
}
