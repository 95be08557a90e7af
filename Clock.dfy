/** `Date` and `Time`: a calendar day and a time of day. Both are built in the
    library by handing a string to an external natural-language parser; here
    their fields are taken as given, in the ranges Python's `datetime` allows,
    with the day bounded by the length of its month. */
module Clock {
  import opened Text
  import opened Wrappers

  type Year = y: int | 1 <= y <= 9999 witness 1
  type Month = m: int | 1 <= m <= 12 witness 1
  type Day = d: int | 1 <= d <= 31 witness 1
  type Hour = h: int | 0 <= h < 24
  type Minute = m: int | 0 <= m < 60

  /** Whether `y` is a leap year of the Gregorian calendar, which `datetime` follows. */
  predicate IsLeapYear(y: Year) {
    (y % 4 == 0 && y % 100 != 0) || y % 400 == 0
  }

  /** The number of days of month `m` of year `y`. */
  function DaysInMonth(y: Year, m: Month): (n: int)
    ensures 28 <= n <= 31
  {
    if m == 2 then (if IsLeapYear(y) then 29 else 28)
    else if m == 4 || m == 6 || m == 9 || m == 11 then 30
    else 31
  }

  /** The fields of a date, before the day is checked against its month. */
  datatype DateFields = Date(year: Year, month: Month, day: Day)

  /** A calendar day, as `datetime.date` admits it: the day exists in its month. */
  type Date = d: DateFields | d.day <= DaysInMonth(d.year, d.month) witness Date(1, 1, 1)

  datatype Time = Time(hour: Hour, minute: Minute)

  /** `a < b` on dates. The library compares dates without defining an order;
      the order assumed here is the calendar one, (year, month, day) lexicographically. */
  predicate DateBefore(a: Date, b: Date) {
    a.year < b.year
    || (a.year == b.year && (a.month < b.month || (a.month == b.month && a.day < b.day)))
  }

  /** `a < b` on times, assumed to be (hour, minute) lexicographically. */
  predicate TimeBefore(a: Time, b: Time) {
    a.hour < b.hour || (a.hour == b.hour && a.minute < b.minute)
  }

  /** A count of days in which every month has 32 slots: an order-preserving
      number for a date, used as the reference for DateBefore. */
  function DayOrdinal(d: Date): int {
    (d.year * 13 + d.month) * 32 + d.day
  }

  /** Minutes since midnight. */
  function MinuteOfDay(t: Time): (m: int)
    ensures 0 <= m < 24 * 60
  {
    t.hour * 60 + t.minute
  }

  lemma DateBeforeIsOrdinalOrder(a: Date, b: Date)
    ensures DateBefore(a, b) <==> DayOrdinal(a) < DayOrdinal(b)
  {
    if a.year < b.year {
      assert DayOrdinal(a) < (a.year * 13 + 13) * 32;
      assert (a.year * 13 + 13) * 32 <= DayOrdinal(b);
    } else if a.year > b.year {
      assert DayOrdinal(b) < (b.year * 13 + 13) * 32;
      assert (b.year * 13 + 13) * 32 <= DayOrdinal(a);
    }
  }

  lemma TimeBeforeIsMinuteOrder(a: Time, b: Time)
    ensures TimeBefore(a, b) <==> MinuteOfDay(a) < MinuteOfDay(b)
  {
  }

  /** The two orders are strict total orders, so "start not before end" in the
      library's checks means "start is at or after end". */
  lemma DateBeforeIsStrictTotalOrder(a: Date, b: Date, c: Date)
    ensures !DateBefore(a, a)
    ensures DateBefore(a, b) && DateBefore(b, c) ==> DateBefore(a, c)
    ensures a == b || DateBefore(a, b) || DateBefore(b, a)
    ensures !(DateBefore(a, b) && DateBefore(b, a))
  {
    DateBeforeIsOrdinalOrder(a, b);
    DateBeforeIsOrdinalOrder(b, c);
    DateBeforeIsOrdinalOrder(a, c);
    DateBeforeIsOrdinalOrder(b, a);
  }

  lemma TimeBeforeIsStrictTotalOrder(a: Time, b: Time, c: Time)
    ensures !TimeBefore(a, a)
    ensures TimeBefore(a, b) && TimeBefore(b, c) ==> TimeBefore(a, c)
    ensures a == b || TimeBefore(a, b) || TimeBefore(b, a)
    ensures !(TimeBefore(a, b) && TimeBefore(b, a))
  {
  }

  /** The hour shown by `Time.__str__`: `(hour - 1) % 12 + 1`. Python's `%` floors;
      with the positive divisor 12 it agrees with Dafny's `%` (hour 0 gives 11 + 1). */
  function DisplayHour(h: Hour): (d: int)
    ensures 1 <= d <= 12
    ensures d == 12 <==> h == 0 || h == 12
    ensures d == (if h == 0 then 12 else if h <= 12 then h else h - 12)
  {
    (h - 1) % 12 + 1
  }

  function Meridiem(h: Hour): string {
    if h < 12 then "AM" else "PM"
  }

  /** `Time.__str__`: "h:m AM" or "h:m PM", twelve-hour clock, neither part padded. */
  function TimeToString(t: Time): string {
    NatToString(DisplayHour(t.hour)) + ":" + NatToString(t.minute) + " " + Meridiem(t.hour)
  }

  /** The 24-hour hour that a twelve-hour display hour and its meridiem stand for. */
  function FromDisplay(d: int, am: bool): int {
    if am then (if d == 12 then 0 else d) else (if d == 12 then 12 else d + 12)
  }

  /** Reading back the display hour and meridiem recovers the hour: no two hours print alike. */
  lemma DisplayHourInverse(h: Hour)
    ensures FromDisplay(DisplayHour(h), h < 12) == h
  {
  }

  /** Cuts "h:m suffix" at the first ':' and the first ' ' after it. */
  function SplitClock(s: string): Option<(string, string, string)> {
    var i := IndexOf(s, ':');
    if i == |s| then None
    else
      var rest := s[i + 1..];
      var j := IndexOf(rest, ' ');
      if j == |rest| then None else Some((s[..i], rest[..j], rest[j + 1..]))
  }

  /** Reads "h:m AM" / "h:m PM" back into a time: the inverse of TimeToString. */
  function ParseTimeString(s: string): Option<Time> {
    match SplitClock(s)
    case None => None
    case Some((hs, ms, suffix)) =>
      if hs == [] || ms == [] || !IsDigits(hs) || !IsDigits(ms) then None
      else
        var h12, m := ParseDigits(hs), ParseDigits(ms);
        if h12 < 1 || 12 < h12 || 60 <= m then None
        else if suffix == "AM" then Some(Time(FromDisplay(h12, true), m))
        else if suffix == "PM" then Some(Time(FromDisplay(h12, false), m))
        else None
  }

  lemma SplitClockOf(hs: string, ms: string, suffix: string)
    requires ':' !in hs && ' ' !in ms
    ensures SplitClock(hs + ":" + ms + " " + suffix) == Some((hs, ms, suffix))
  {
    var s := hs + ":" + ms + " " + suffix;
    var rest := ms + [' '] + suffix;
    assert s == hs + [':'] + rest;
    IndexOfAfter(hs, ':', rest);
    assert s[..|hs|] == hs;
    assert s[|hs| + 1..] == rest;
    IndexOfAfter(ms, ' ', suffix);
    assert rest[..|ms|] == ms;
    assert rest[|ms| + 1..] == suffix;
  }

  lemma TimeStringRoundTrip(t: Time)
    ensures ParseTimeString(TimeToString(t)) == Some(t)
  {
    var hs, ms := NatToString(DisplayHour(t.hour)), NatToString(t.minute);
    DigitsHaveNo(hs, ':');
    DigitsHaveNo(ms, ' ');
    SplitClockOf(hs, ms, Meridiem(t.hour));
    ParseNatToString(DisplayHour(t.hour));
    ParseNatToString(t.minute);
    DisplayHourInverse(t.hour);
  }

  /** Two times print the same only when they are the same time. */
  lemma TimeToStringInjective(a: Time, b: Time)
    requires TimeToString(a) == TimeToString(b)
    ensures a == b
  {
    TimeStringRoundTrip(a);
    TimeStringRoundTrip(b);
  }
}
