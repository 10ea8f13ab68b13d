/**
  formatTimestamp of desktop/src/lib/transcript.ts. The argument is multiplied by 10 and
  the product is decomposed as milliseconds, so one unit of the argument is 10 ms: the
  model calls it a tick. Only integer arguments are modelled.
*/
module Timestamp {
  import opened Wrappers
  import opened Strings
  import opened Segments

  /** The clock fields of a duration in milliseconds. */
  datatype Clock = Clock(hours: nat, minutes: nat, seconds: nat, millis: nat)

  /** A clock whose fields are within their radix. */
  predicate WellFormed(c: Clock) {
    c.minutes < 60 && c.seconds < 60 && c.millis < 1_000
  }

  /**
    The fields formatTimestamp derives from `ticks`, by the source's steps: each field is
    the floor of what is left over, and what it accounts for is subtracted. They add back
    up to 10 * ticks milliseconds, and each is below its radix.
  */
  function ClockOf(ticks: nat): (c: Clock)
    ensures c.hours * 3_600_000 + c.minutes * 60_000 + c.seconds * 1_000 + c.millis == 10 * ticks
    ensures WellFormed(c)
  {
    var milliseconds := ticks * 10;
    var hours := milliseconds / 3_600_000;
    var milliseconds := milliseconds - hours * 3_600_000;
    var minutes := milliseconds / 60_000;
    var milliseconds := milliseconds - minutes * 60_000;
    var formattedSeconds := milliseconds / 1_000;
    var milliseconds := milliseconds - formattedSeconds * 1_000;
    Clock(hours, minutes, formattedSeconds, milliseconds)
  }

  function Pad2(n: nat): string {
    PadStart(NatToString(n), 2, '0')
  }

  function Pad3(n: nat): string {
    PadStart(NatToString(n), 3, '0')
  }

  /** The `HH:` part: present when hours are forced or non-zero. */
  function HoursMarker(c: Clock, alwaysIncludeHours: bool): string {
    if alwaysIncludeHours || c.hours != 0 then Pad2(c.hours) + ":" else ""
  }

  /** `MM:SS`, both zero-padded to two digits. */
  function MinutesSeconds(c: Clock): string {
    Pad2(c.minutes) + ":" + Pad2(c.seconds)
  }

  /** The decimal marker and three-digit milliseconds, when they are asked for. */
  function MillisPart(c: Clock, decimalMarker: string, includeMilliseconds: bool): string {
    if includeMilliseconds then decimalMarker + Pad3(c.millis) else ""
  }

  /** The text formatTimestamp builds from the clock fields. */
  function Render(c: Clock, alwaysIncludeHours: bool, decimalMarker: string, includeMilliseconds: bool): string {
    HoursMarker(c, alwaysIncludeHours) + MinutesSeconds(c) + MillisPart(c, decimalMarker, includeMilliseconds)
  }

  /** The text formatTimestamp builds for a non-negative tick count. */
  function TimestampText(ticks: nat, alwaysIncludeHours: bool, decimalMarker: string, includeMilliseconds: bool): string {
    Render(ClockOf(ticks), alwaysIncludeHours, decimalMarker, includeMilliseconds)
  }

  /** formatTimestamp: a negative argument throws, and is never clamped to zero. */
  function FormatTimestamp(seconds: int, alwaysIncludeHours: bool, decimalMarker: string, includeMilliseconds: bool): (r: Result<string, TranscriptError>)
    ensures r.Failure? <==> seconds < 0
    ensures r.Failure? ==> r.error == NegativeTimestamp
  {
    if seconds < 0 then Failure(NegativeTimestamp)
    else Success(TimestampText(seconds, alwaysIncludeHours, decimalMarker, includeMilliseconds))
  }

  /**
    formatTimestamp as the source runs it: `milliseconds` is reduced field by field and the
    result string is built and then extended with the milliseconds.
  */
  method FormatTimestampStepwise(seconds: int, alwaysIncludeHours: bool, decimalMarker: string, includeMilliseconds: bool)
    returns (r: Result<string, TranscriptError>)
    ensures r == FormatTimestamp(seconds, alwaysIncludeHours, decimalMarker, includeMilliseconds)
  {
    if seconds < 0 {
      return Failure(NegativeTimestamp);
    }
    var milliseconds := seconds * 10;
    var hours := milliseconds / 3_600_000;
    milliseconds := milliseconds - hours * 3_600_000;
    var minutes := milliseconds / 60_000;
    milliseconds := milliseconds - minutes * 60_000;
    var formattedSeconds := milliseconds / 1_000;
    milliseconds := milliseconds - formattedSeconds * 1_000;
    ghost var c := Clock(hours, minutes, formattedSeconds, milliseconds);
    assert c == ClockOf(seconds);
    var hoursMarker := if alwaysIncludeHours || hours != 0 then Pad2(hours) + ":" else "";
    assert hoursMarker == HoursMarker(c, alwaysIncludeHours);
    var result := hoursMarker + (Pad2(minutes) + ":" + Pad2(formattedSeconds));
    assert result == HoursMarker(c, alwaysIncludeHours) + MinutesSeconds(c);
    if includeMilliseconds {
      result := result + (decimalMarker + Pad3(milliseconds));
    } else {
      assert result == result + MillisPart(c, decimalMarker, false);
    }
    return Success(result);
  }

  /** Minutes and seconds are always exactly two digits. */
  lemma MinutesSecondsDigits(c: Clock)
    requires WellFormed(c)
    ensures MinutesSeconds(c) == TwoDigitText(c.minutes) + ":" + TwoDigitText(c.seconds)
  {
    TwoDigits(c.minutes);
    TwoDigits(c.seconds);
  }

  /** Milliseconds, when included, are the marker and exactly three digits. */
  lemma MillisDigits(c: Clock, decimalMarker: string, includeMilliseconds: bool)
    requires WellFormed(c)
    ensures MillisPart(c, decimalMarker, includeMilliseconds)
      == if includeMilliseconds then decimalMarker + ThreeDigitText(c.millis) else ""
  {
    ThreeDigits(c.millis);
  }

  /** Hours, when shown, are at least two digits and read back as the hour count. */
  lemma HoursDigits(c: Clock)
    ensures |Pad2(c.hours)| >= 2 && AllDigits(Pad2(c.hours)) && ParseDigits(Pad2(c.hours)) == c.hours
  {
    ParsePadded(c.hours, 2);
  }

  /**
    The layout: the `HH:` part appears exactly when hours are forced or non-zero, then five
    characters `MM:SS`, then the marker and three digits exactly when milliseconds are included.
  */
  lemma {:induction false} TimestampLength(ticks: nat, alwaysIncludeHours: bool, decimalMarker: string, includeMilliseconds: bool)
    ensures var c := ClockOf(ticks);
      |TimestampText(ticks, alwaysIncludeHours, decimalMarker, includeMilliseconds)|
      == (if alwaysIncludeHours || c.hours != 0 then |Pad2(c.hours)| + 1 else 0)
         + 5 + (if includeMilliseconds then |decimalMarker| + 3 else 0)
  {
    var c := ClockOf(ticks);
    MinutesSecondsDigits(c);
    MillisDigits(c, decimalMarker, includeMilliseconds);
  }

  /** Zero ticks without forced hours read "00:00.000". */
  lemma TimestampOfZero()
    ensures FormatTimestamp(0, false, ".", true) == Success("00:00.000")
  {
    assert ClockOf(0) == Clock(0, 0, 0, 0);
    ZeroClockText();
  }

  lemma ZeroClockText()
    ensures Render(Clock(0, 0, 0, 0), false, ".", true) == "00:00.000"
  {
    var c := Clock(0, 0, 0, 0);
    assert Pad2(0) == "00" by {
      TwoDigits(0);
      assert TwoDigitText(0) == "00";
    }
    assert Pad3(0) == "000" by {
      ThreeDigits(0);
      assert ThreeDigitText(0) == "000";
    }
    assert HoursMarker(c, false) == "";
    assert MinutesSeconds(c) == "00:00";
    assert MillisPart(c, ".", true) == ".000";
  }

  lemma NoHoursBelow(ticks: nat)
    requires ticks < 360_000
    ensures ClockOf(ticks).hours == 0
  {
  }

  lemma FixedWidthTail(c: Clock, decimalMarker: string)
    requires WellFormed(c)
    ensures |MinutesSeconds(c) + MillisPart(c, decimalMarker, true)| == 5 + |decimalMarker| + 3
  {
    MinutesSecondsDigits(c);
    MillisDigits(c, decimalMarker, true);
  }

  /** With hours not forced, durations under one hour (360 000 ticks) render as MM:SS<marker>mmm. */
  lemma NoHoursUnderOneHour(ticks: nat, decimalMarker: string)
    requires ticks < 360_000
    ensures var c := ClockOf(ticks);
      TimestampText(ticks, false, decimalMarker, true) == MinutesSeconds(c) + MillisPart(c, decimalMarker, true)
    ensures |TimestampText(ticks, false, decimalMarker, true)| == 5 + |decimalMarker| + 3
  {
    var c := ClockOf(ticks);
    NoHoursBelow(ticks);
    RenderWithoutHours(c, decimalMarker);
    FixedWidthTail(c, decimalMarker);
  }

  lemma RenderWithoutHours(c: Clock, decimalMarker: string)
    requires c.hours == 0
    ensures Render(c, false, decimalMarker, true) == MinutesSeconds(c) + MillisPart(c, decimalMarker, true)
  {
    assert HoursMarker(c, false) == "";
    EmptyHead(MinutesSeconds(c), MillisPart(c, decimalMarker, true));
  }

  lemma EmptyHead(a: string, b: string)
    ensures "" + a + b == a + b
  {
  }

  /** Each padded field reads back as its value. */
  lemma PaddedFieldsRead(c: Clock)
    requires WellFormed(c)
    ensures AllDigits(Pad2(c.minutes)) && |Pad2(c.minutes)| == 2 && ParseDigits(Pad2(c.minutes)) == c.minutes
    ensures AllDigits(Pad2(c.seconds)) && |Pad2(c.seconds)| == 2 && ParseDigits(Pad2(c.seconds)) == c.seconds
    ensures AllDigits(Pad3(c.millis)) && |Pad3(c.millis)| == 3 && ParseDigits(Pad3(c.millis)) == c.millis
  {
    ParsePadded(c.minutes, 2);
    TwoDigits(c.minutes);
    ParsePadded(c.seconds, 2);
    TwoDigits(c.seconds);
    ParsePadded(c.millis, 3);
    ThreeDigits(c.millis);
  }

  /** The number of milliseconds a clock stands for. */
  function Millis(c: Clock): nat {
    c.hours * 3_600_000 + c.minutes * 60_000 + c.seconds * 1_000 + c.millis
  }

  /**
    Reads back the SubRip-style layout `H..H:MM:SS<c>mmm` (hours forced, a one-character
    marker, milliseconds shown) as clock fields.
  */
  function ReadClock(s: string): Option<Clock> {
    var n := |s|;
    if n < 12 || s[n - 10] != ':' || s[n - 7] != ':' then None
    else if !AllDigits(s[..n - 10]) || !AllDigits(s[n - 9..n - 7]) || !AllDigits(s[n - 6..n - 4]) || !AllDigits(s[n - 3..]) then None
    else Some(Clock(ParseDigits(s[..n - 10]), ParseDigits(s[n - 9..n - 7]), ParseDigits(s[n - 6..n - 4]), ParseDigits(s[n - 3..])))
  }

  /** Reading a rendered clock back gives its fields. */
  lemma {:induction false} ReadRender(c: Clock, marker: char)
    requires WellFormed(c)
    ensures ReadClock(Render(c, true, [marker], true)) == Some(c)
  {
    var hp, mm, ss, ms := Pad2(c.hours), Pad2(c.minutes), Pad2(c.seconds), Pad3(c.millis);
    HoursDigits(c);
    PaddedFieldsRead(c);
    ForcedShape(c, marker);
    ReadFields(hp, mm, ss, marker, ms);
  }

  lemma ForcedShape(c: Clock, marker: char)
    ensures Render(c, true, [marker], true)
      == Pad2(c.hours) + (":" + (Pad2(c.minutes) + ":" + Pad2(c.seconds)) + ([marker] + Pad3(c.millis)))
  {
    assert HoursMarker(c, true) == Pad2(c.hours) + ":";
  }

  /** ReadClock splits its argument at the fixed positions the layout puts the separators. */
  lemma ReadFields(hp: string, mm: string, ss: string, marker: char, ms: string)
    requires |hp| >= 2 && |mm| == 2 && |ss| == 2 && |ms| == 3
    requires AllDigits(hp) && AllDigits(mm) && AllDigits(ss) && AllDigits(ms)
    ensures ReadClock(hp + (":" + (mm + ":" + ss) + ([marker] + ms)))
      == Some(Clock(ParseDigits(hp), ParseDigits(mm), ParseDigits(ss), ParseDigits(ms)))
  {
    var tail := ":" + (mm + ":" + ss) + ([marker] + ms);
    SplitTail(hp, tail, mm, ss, marker, ms);
    ReadAt(hp + tail, hp, mm, ss, ms);
  }

  lemma ReadAt(s: string, hp: string, mm: string, ss: string, ms: string)
    requires |s| >= 12
    requires s[..|s| - 10] == hp && s[|s| - 10] == ':' && s[|s| - 7] == ':'
    requires s[|s| - 9..|s| - 7] == mm && s[|s| - 6..|s| - 4] == ss && s[|s| - 3..] == ms
    requires AllDigits(hp) && AllDigits(mm) && AllDigits(ss) && AllDigits(ms)
    ensures ReadClock(s) == Some(Clock(ParseDigits(hp), ParseDigits(mm), ParseDigits(ss), ParseDigits(ms)))
  {
  }

  lemma SplitTail(hp: string, tail: string, mm: string, ss: string, marker: char, ms: string)
    requires |mm| == 2 && |ss| == 2 && |ms| == 3
    requires tail == ":" + (mm + ":" + ss) + ([marker] + ms)
    ensures var s := hp + tail; var n := |s|;
      n == |hp| + 10 && s[..n - 10] == hp && s[n - 10] == ':' && s[n - 7] == ':'
      && s[n - 9..n - 7] == mm && s[n - 6..n - 4] == ss && s[n - 3..] == ms
  {
    var s := hp + tail;
    var n := |s|;
    assert tail[1..3] == mm;
    assert tail[4..6] == ss;
    assert tail[7..] == ms;
    assert s[n - 9..n - 7] == tail[1..3];
    assert s[n - 6..n - 4] == tail[4..6];
    assert s[n - 3..] == tail[7..];
  }

  /**
    With hours forced and milliseconds shown (the SubRip form), the text reads back as the
    clock fields of the tick count, which stand for exactly 10 * ticks milliseconds.
  */
  lemma ReadClockRoundTrip(ticks: nat, marker: char)
    ensures ReadClock(TimestampText(ticks, true, [marker], true)) == Some(ClockOf(ticks))
    ensures Millis(ClockOf(ticks)) == 10 * ticks
  {
    ReadRender(ClockOf(ticks), marker);
  }
}
