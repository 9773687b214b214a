/** Wall-clock arithmetic used by the sleep calculator: the browser `Date`
    reduced to a local instant counted in whole minutes, and the `HH:MM`
    rendering of such an instant. */
module Clock {

  const MinutesPerHour := 60
  const MinutesPerDay := 1440

  /** The minute of the day of instant `t` (0 is midnight); negative instants
      lie on earlier days and wrap the same way. */
  function MinuteOfDay(t: int): (r: int)
    ensures 0 <= r < MinutesPerDay
    ensures (t - r) % MinutesPerDay == 0
  {
    t % MinutesPerDay
  }

  /** `getHours()` of a local instant. */
  function HoursOf(t: int): (h: int)
    ensures 0 <= h < 24
  {
    MinuteOfDay(t) / MinutesPerHour
  }

  /** `getMinutes()` of a local instant: the minute within its hour. */
  function MinutesOf(t: int): (m: int)
    ensures 0 <= m < MinutesPerHour
    ensures HoursOf(t) * MinutesPerHour + m == MinuteOfDay(t)
  {
    MinuteOfDay(t) % MinutesPerHour
  }

  /** A browser `Date` as the calculator uses it. Seconds and milliseconds
      are always zero (the anchor is built with `setHours(h, m, 0, 0)`), so
      the instant is a whole number of minutes on the local clock. */
  class Date {
    var minutes: int

    /** `new Date(other)`: a separate object holding the same instant. */
    constructor Copy(other: Date)
      ensures minutes == other.minutes
    {
      minutes := other.minutes;
    }

    function GetMinutes(): (m: int)
      reads this
      ensures 0 <= m < MinutesPerHour
    {
      MinutesOf(minutes)
    }

    /** `setMinutes(m)`: keeps the day and the hour and sets the minute field
        to `m`; a value outside 0..59 carries into the hour and the day, so
        the instant moves by the change of the minute field. */
    method SetMinutes(m: int)
      modifies this
      ensures minutes - old(minutes) == m - old(GetMinutes())
    {
      minutes := minutes - MinutesOf(minutes) + m;
    }
  }

  predicate IsDigit(c: char) {
    '0' <= c <= '9'
  }

  function Digit(d: int): (c: char)
    requires 0 <= d < 10
    ensures IsDigit(c)
  {
    (('0' as int) + d) as char
  }

  function DigitValue(c: char): int {
    (c as int) - ('0' as int)
  }

  /** The number a string of decimal digits denotes, most significant first. */
  function DecimalValue(s: string): int {
    if s == [] then 0 else DecimalValue(s[..|s| - 1]) * 10 + DigitValue(s[|s| - 1])
  }

  /** `n.toString()` for a non-negative integer: its decimal digits without
      leading zeros. */
  function ToDecimal(n: nat): (r: string)
    ensures 1 <= |r|
    ensures forall i :: 0 <= i < |r| ==> IsDigit(r[i])
    ensures DecimalValue(r) == n
    ensures |r| == 1 <==> n < 10
    ensures n < 100 ==> |r| <= 2
    ensures 1 <= n ==> r[0] != '0'
  {
    if n < 10 then [Digit(n)]
    else
      var init := ToDecimal(n / 10);
      var r := init + [Digit(n % 10)];
      assert r[..|r| - 1] == init;
      r
  }

  /** `s.padStart(width, [fill])`: `s` preceded by as many `fill` characters
      as it lacks to reach `width`. */
  function PadStart(s: string, width: nat, fill: char): (r: string)
    ensures |r| == if |s| < width then width else |s|
    ensures r[|r| - |s|..] == s
    ensures forall i :: 0 <= i < |r| - |s| ==> r[i] == fill
  {
    if |s| < width then seq(width - |s|, _ => fill) + s else s
  }

  lemma TwoDigitValue(a: int, b: int)
    requires 0 <= a < 10 && 0 <= b < 10
    ensures DecimalValue([Digit(a), Digit(b)]) == 10 * a + b
  {
    var s := [Digit(a), Digit(b)];
    assert DigitValue(Digit(a)) == a && DigitValue(Digit(b)) == b;
    assert s[..1] == [Digit(a)];
    assert [Digit(a)][..0] == [];
    assert DecimalValue([Digit(a)]) == a;
  }

  /** `n.toString().padStart(2, '0')` for a clock field below 100 is its two
      positional digits. */
  function Pad2(n: nat): (r: string)
    requires n < 100
    ensures r == [Digit(n / 10), Digit(n % 10)]
    ensures DecimalValue(r) == n
  {
    var d := ToDecimal(n);
    if n < 10 then
      assert d == [Digit(n)] by {
        assert d[..0] == [];
        assert d[0] == Digit(n);
      }
      TwoDigitValue(0, n);
      PadStart(d, 2, '0')
    else
      assert d == [Digit(n / 10), Digit(n % 10)] by {
        assert d[..1] == ToDecimal(n / 10);
        assert d[..1] == [d[0]];
      }
      TwoDigitValue(n / 10, n % 10);
      PadStart(d, 2, '0')
  }

  /** `formatTime`: the 24-hour `HH:MM` text of an instant, zero-padded. The
      text reads back as the instant's minute of the day. */
  function FormatTime(t: int): (r: string)
    ensures |r| == 5 && r[2] == ':'
    ensures IsDigit(r[0]) && IsDigit(r[1]) && IsDigit(r[3]) && IsDigit(r[4])
    ensures 0 <= DecimalValue(r[..2]) < 24 && 0 <= DecimalValue(r[3..]) < 60
    ensures DecimalValue(r[..2]) * MinutesPerHour + DecimalValue(r[3..]) == MinuteOfDay(t)
  {
    var hh := Pad2(HoursOf(t));
    var mm := Pad2(MinutesOf(t));
    JoinParts(hh, mm);
    hh + ":" + mm
  }

  lemma JoinParts(hh: string, mm: string)
    requires |hh| == 2 && |mm| == 2
    ensures var r := hh + ":" + mm;
      |r| == 5 && r[2] == ':' && r[..2] == hh && r[3..] == mm &&
      r[0] == hh[0] && r[1] == hh[1] && r[3] == mm[0] && r[4] == mm[1]
  {
  }

  /** The text of an instant `hours:minutes` past some midnight: its
      zero-padded digits around a colon. */
  lemma FormatTimeOfClock(t: int, hours: int, minutes: int)
    requires 0 <= hours < 24 && 0 <= minutes < 60
    requires MinuteOfDay(t) == hours * MinutesPerHour + minutes
    ensures FormatTime(t)
         == [Digit(hours / 10), Digit(hours % 10), ':', Digit(minutes / 10), Digit(minutes % 10)]
  {
    assert HoursOf(t) == hours && MinutesOf(t) == minutes;
  }

  /** Two instants print the same exactly when they share the minute of the
      day: the display wraps at midnight and loses the day. */
  lemma FormatTimeSameText(t1: int, t2: int)
    ensures FormatTime(t1) == FormatTime(t2) <==> MinuteOfDay(t1) == MinuteOfDay(t2)
  {
    if FormatTime(t1) == FormatTime(t2) {
      var r := FormatTime(t1);
      assert DecimalValue(r[..2]) * MinutesPerHour + DecimalValue(r[3..]) == MinuteOfDay(t2);
    }
  }

  /** Moving an instant by whole days does not change its text. */
  lemma FormatTimeWholeDays(t: int, days: int)
    ensures FormatTime(t + days * MinutesPerDay) == FormatTime(t)
  {
    WholeDaysKeepMinuteOfDay(t, days);
    FormatTimeSameText(t + days * MinutesPerDay, t);
  }

  lemma WholeDaysKeepMinuteOfDay(t: int, days: int)
    ensures MinuteOfDay(t + days * MinutesPerDay) == MinuteOfDay(t)
  {
  }
}
