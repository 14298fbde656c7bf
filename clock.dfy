/**
 * The text shown on each player's timer: `formatTime` turns a number of
 * seconds into `m:ss`. `ParseClock` reads such a text back and is the
 * partner the round trip is stated against.
 */
module Clock {
  import opened Wrappers
  import opened Numbers

  /** A timer text: at least one minute digit, a colon, and two second digits reading 00..59. */
  predicate IsClockText(t: string) {
    && |t| >= 4
    && AllDigits(t[..|t| - 3])
    && t[|t| - 3] == ':'
    && IsDigit(t[|t| - 2]) && t[|t| - 2] <= '5'
    && IsDigit(t[|t| - 1])
  }

  /**
   * `formatTime(seconds)`: the minutes are `Math.floor(seconds / 60)`, the
   * seconds `seconds % 60` with JavaScript's truncating remainder, padded on
   * the left with '0' to two characters. For a negative argument the output
   * is what JavaScript prints (for -1, "-1:-1"); the clocks of the session
   * never get there.
   */
  function FormatTime(seconds: int): (t: string)
    ensures |t| >= 4 && (t[0] == '-' <==> seconds < 0)
    ensures seconds >= 0 ==> IsClockText(t)
  {
    var minutes := seconds / 60;  // Dafny's division rounds down for a positive divisor
    var remainingSeconds := TruncRemainder(seconds, 60);
    var t := NumberToString(minutes) + ":" + PadStart(NumberToString(remainingSeconds), 2, '0');
    assert seconds >= 0 ==> IsClockText(t) by {
      if seconds >= 0 {
        SecondsField(seconds);
        ClockTextShape(minutes, seconds % 60);
      }
    }
    assert t[0] == NumberToString(minutes)[0];
    t
  }

  /** Minute digits, a colon and the two digits of a value below 60 make a timer text. */
  lemma ClockTextShape(minutes: nat, rem: nat)
    requires rem < 60
    ensures IsClockText(NatToDecimal(minutes) + ":" + [DigitChar(rem / 10), DigitChar(rem % 10)])
  {
    var t := NatToDecimal(minutes) + ":" + [DigitChar(rem / 10), DigitChar(rem % 10)];
    assert t[..|t| - 3] == NatToDecimal(minutes);
  }

  /** Reads a timer text back into seconds; `None` for anything that is not one. */
  function ParseClock(t: string): (r: Option<nat>)
    ensures r.Some? <==> IsClockText(t)
  {
    if !IsClockText(t) then None
    else
      var minutes := ParseDecimal(t[..|t| - 3]);
      Some(minutes.value * 60 + DigitValue(t[|t| - 2]) * 10 + DigitValue(t[|t| - 1]))
  }

  /** The seconds field of a non-negative time is exactly two digits, the value's tens and units. */
  lemma SecondsField(seconds: int)
    requires seconds >= 0
    ensures PadStart(NumberToString(TruncRemainder(seconds, 60)), 2, '0')
            == [DigitChar(seconds % 60 / 10), DigitChar(seconds % 60 % 10)]
  {
    var rem := seconds % 60;
    if rem >= 10 {
      assert NatToDecimal(rem) == NatToDecimal(rem / 10) + [DigitChar(rem % 10)];
    }
  }

  /**
   * For a non-negative time the text is the minute numeral, a colon, and
   * the tens and units digits of the remaining seconds.
   */
  lemma FormatTimeDigits(seconds: int)
    requires seconds >= 0
    ensures FormatTime(seconds)
            == NatToDecimal(seconds / 60) + ":" + [DigitChar(seconds % 60 / 10), DigitChar(seconds % 60 % 10)]
  {
    SecondsField(seconds);
  }

  /** The minute numeral, a colon and the two digits of the remaining seconds read back as the seconds. */
  lemma {:induction false} ParseClockDigits(t: string, seconds: nat)
    requires t == NatToDecimal(seconds / 60) + ":" + [DigitChar(seconds % 60 / 10), DigitChar(seconds % 60 % 10)]
    ensures ParseClock(t) == Some(seconds)
  {
    ClockTextShape(seconds / 60, seconds % 60);
    assert t[..|t| - 3] == NatToDecimal(seconds / 60);
    ParseNatToDecimal(seconds / 60);
  }

  /**
   * For every non-negative number of seconds the text reads back as that
   * number: minutes * 60 + seconds field == seconds, with the field below 60.
   */
  lemma {:induction false} FormatTimeRoundTrip(seconds: int)
    requires seconds >= 0
    ensures ParseClock(FormatTime(seconds)) == Some(seconds)
  {
    FormatTimeDigits(seconds);
    ParseClockDigits(FormatTime(seconds), seconds);
  }

  /** Two different non-negative times never show the same text. */
  lemma FormatTimeInjective(s1: int, s2: int)
    requires s1 >= 0 && s2 >= 0
    requires FormatTime(s1) == FormatTime(s2)
    ensures s1 == s2
  {
    FormatTimeRoundTrip(s1);
    FormatTimeRoundTrip(s2);
  }

  /** A full ten-minute clock reads "10:00". */
  lemma StartingClockText()
    ensures FormatTime(600) == "10:00"
  {
    assert 600 / 60 == 10 && 600 % 60 == 0;
    FormatTimeDigits(600);
    assert NatToDecimal(10) == NatToDecimal(1) + [DigitChar(0)];
  }

  /** After the first tick the clock reads "9:59". */
  lemma FirstTickClockText()
    ensures FormatTime(599) == "9:59"
  {
    assert 599 / 60 == 9 && 599 % 60 == 59 && 59 / 10 == 5 && 59 % 10 == 9;
    FormatTimeDigits(599);
  }
}
