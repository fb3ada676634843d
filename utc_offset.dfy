/** The time-zone label in the weather header (app.py:812-818): the city's UTC
    offset in seconds is split into hours (floor division by 3600) and minutes
    (the remainder in whole minutes) and printed as "UTC+9" or "UTC+5:30". */
module UtcOffset {
  import opened Wrappers
  import opened Text

  const SecondsPerHour: int := 3600
  const SecondsPerMinute: int := 60

  function Abs(x: int): nat
  {
    if x < 0 then -x else x
  }

  /** `offset // 3600`. Python floors; so does Dafny's `/` by a positive divisor. */
  function Hours(offset: int): (h: int)
    ensures h * SecondsPerHour <= offset < (h + 1) * SecondsPerHour
  {
    offset / SecondsPerHour
  }

  /** `abs(offset % 3600) // 60`. Python's `%` by a positive divisor is never
      negative, so the `abs` changes nothing: for a negative offset these are
      the minutes past the (floored) hour, not the minutes of the magnitude. */
  function Minutes(offset: int): (m: nat)
    ensures m <= 59
  {
    Abs(offset % SecondsPerHour) / SecondsPerMinute
  }

  /** Hours and minutes together make up the offset when it is a whole number
      of minutes. */
  lemma HoursMinutesExact(offset: int)
    requires offset % SecondsPerMinute == 0
    ensures Hours(offset) * SecondsPerHour + Minutes(offset) * SecondsPerMinute == offset
  {
    var h, r := offset / SecondsPerHour, offset % SecondsPerHour;
    assert offset == 3600 * h + r;
    var q, t := r / 60, r % 60;
    assert r == 60 * q + t;
    assert offset == 60 * (60 * h + q) + t;
    assert t == offset % 60;
  }

  /** The label as app.py:815-818 writes it: the hours with a sign (`+d`), and
      ":mm" (`02d`) only when the minutes are not zero. */
  function LabelAsWritten(offset: int): (s: string)
    ensures |s| >= 5 && s[..3] == "UTC" && (s[3] == '-' <==> offset < 0)
  {
    var h, m := Hours(offset), Minutes(offset);
    if m == 0 then "UTC" + SignedString(h) else "UTC" + SignedString(h) + ":" + TwoDigits(m)
  }

  /** A label made of a sign, a number of hours and a number of minutes, the
      minutes shown only when they are not zero. */
  function Render(sign: char, hours: nat, minutes: nat): string
  {
    if minutes == 0 then "UTC" + [sign] + NatToString(hours)
    else "UTC" + [sign] + NatToString(hours) + ":" + TwoDigits(minutes)
  }

  /** The label as written is the floored hours with their sign, followed by
      the minutes past them. */
  lemma LabelAsWrittenRenders(offset: int)
    ensures LabelAsWritten(offset)
         == Render(if Hours(offset) < 0 then '-' else '+', Abs(Hours(offset)), Minutes(offset))
  {
    var h := Hours(offset);
    var sign := if h < 0 then '-' else '+';
    assert SignedString(h) == [sign] + NatToString(Abs(h));
    assert "UTC" + SignedString(h) == "UTC" + [sign] + NatToString(Abs(h));
  }

  /** The label in the sign-magnitude form in which such labels are read: a
      sign, then the hours and minutes of the magnitude of the offset. */
  function Label(offset: int): string
  {
    Render(if offset < 0 then '-' else '+', Abs(offset) / SecondsPerHour,
           Abs(offset) % SecondsPerHour / SecondsPerMinute)
  }

  /** How a reader takes a label: "UTC", a sign, hours, and optionally ":" and
      two digits of minutes; the sign applies to hours and minutes together. */
  function ReadLabel(text: string): Option<int>
  {
    if |text| < 4 || text[..3] != "UTC" || (text[3] != '+' && text[3] != '-') then None
    else
      var parts := Split(text[4..], ':');
      var hours := parts[0];
      if hours == [] || !AllDigits(hours) || |parts| > 2 then None
      else if |parts| == 2 && (|parts[1]| != 2 || !AllDigits(parts[1])) then None
      else
        var minutes := if |parts| == 2 then ParseNat(parts[1]) else 0;
        var magnitude: int := ParseNat(hours) * SecondsPerHour + minutes * SecondsPerMinute;
        Some(if text[3] == '-' then -magnitude else magnitude)
  }

  lemma DigitsHaveNoColon(s: string)
    requires AllDigits(s)
    ensures ':' !in s
  {
    forall i | 0 <= i < |s| ensures s[i] != ':' {
      assert IsDigit(s[i]);
    }
  }

  /** Reading a label printed as sign, hours and minutes gives back the signed
      magnitude. */
  lemma ReadRender(sign: char, h: nat, m: nat)
    requires sign == '+' || sign == '-'
    requires m < 60
    ensures ReadLabel(Render(sign, h, m))
         == Some(if sign == '-' then -(h * SecondsPerHour + m * SecondsPerMinute)
                 else h * SecondsPerHour + m * SecondsPerMinute)
  {
    var hours := NatToString(h);
    DigitsHaveNoColon(hours);
    ParseNatToString(h);
    var text := Render(sign, h, m);
    if m == 0 {
      assert text[..3] == "UTC" && text[3] == sign && text[4..] == hours;
      SplitNoSeparator(hours, ':');
    } else {
      var minutes := TwoDigits(m);
      DigitsHaveNoColon(minutes);
      assert text[..3] == "UTC" && text[3] == sign;
      assert text[4..] == hours + [':'] + minutes;
      SplitAround(hours, minutes, ':');
    }
  }

  /** The sign-magnitude label reads back as the offset, for every offset in
      whole minutes. */
  lemma LabelRoundTrip(offset: int)
    requires offset % SecondsPerMinute == 0
    ensures ReadLabel(Label(offset)) == Some(offset)
  {
    var a := Abs(offset);
    assert a % SecondsPerMinute == 0;
    HoursMinutesExact(a);
    ReadRender(if offset < 0 then '-' else '+', a / SecondsPerHour, a % SecondsPerHour / SecondsPerMinute);
  }

  /** The label as written reads back correctly for offsets east of UTC and for
      whole hours west of it. */
  lemma LabelAsWrittenRoundTrip(offset: int)
    requires offset % SecondsPerMinute == 0
    requires offset >= 0 || offset % SecondsPerHour == 0
    ensures ReadLabel(LabelAsWritten(offset)) == Some(offset)
  {
    LabelAsWrittenRenders(offset);
    HoursMinutesExact(offset);
    ReadRender(if Hours(offset) < 0 then '-' else '+', Abs(Hours(offset)), Minutes(offset));
  }

  /** For an offset west of UTC that is not a whole number of hours, the label
      as written reads as an offset that is off by twice its minutes: the hours
      are floored, and the minutes past that floor are printed after a minus sign. */
  lemma LabelAsWrittenMisreadsWest(offset: int)
    requires offset < 0 && offset % SecondsPerMinute == 0 && offset % SecondsPerHour != 0
    ensures Minutes(offset) > 0
    ensures ReadLabel(LabelAsWritten(offset)) == Some(offset - 2 * Minutes(offset) * SecondsPerMinute)
    ensures ReadLabel(LabelAsWritten(offset)) != Some(offset)
  {
    LabelAsWrittenRenders(offset);
    HoursMinutesExact(offset);
    ReadRender('-', Abs(Hours(offset)), Minutes(offset));
  }

  /** Newfoundland, UTC-3:30 (-12600 s): printed "UTC-4:30", which reads as
      -16200 s; the sign-magnitude label prints "UTC-3:30". */
  lemma NewfoundlandExample()
    ensures Hours(-12600) == -4 && Minutes(-12600) == 30
    ensures LabelAsWritten(-12600) == "UTC-4:30"
    ensures ReadLabel(LabelAsWritten(-12600)) == Some(-16200)
    ensures Label(-12600) == "UTC-3:30"
  {
    LabelAsWrittenMisreadsWest(-12600);
    assert NatToString(4) == "4" && NatToString(3) == "3";
    assert NatToString(30) == "30";
  }

  /** Whole hours print without minutes, and other offsets with two-digit minutes. */
  lemma LabelAsWrittenExamples()
    ensures LabelAsWritten(32400) == "UTC+9"
    ensures LabelAsWritten(0) == "UTC+0"
    ensures LabelAsWritten(-18000) == "UTC-5"
    ensures LabelAsWritten(19800) == "UTC+5:30"
    ensures LabelAsWritten(20700) == "UTC+5:45"
  {
    assert NatToString(9) == "9" && NatToString(0) == "0" && NatToString(5) == "5";
    assert NatToString(30) == "30" && NatToString(45) == "45";
  }
}
