/**
 * Wall-clock time as the app sees it through `Date()` and `DateFormatter`.
 *
 * An instant is a whole number of seconds since 1970-01-01T00:00:00Z. The device's
 * time zone (`TimeZone.current`) is a fixed offset from UTC in seconds, and local
 * dates follow the Gregorian leap-year rule. The two patterns the app formats
 * with are `HH:mm` (the timestamp suffix of a capture) and `MM-dd-yyyy` (the key
 * of a Roam daily-note page).
 */
module Clock {
  import opened Options
  import opened Text

  const SecondsPerDay: int := 86400

  predicate IsLeapYear(y: int) {
    (y % 4 == 0 && y % 100 != 0) || y % 400 == 0
  }

  function DaysInYear(y: int): (n: int)
    ensures n == 365 || n == 366
  {
    if IsLeapYear(y) then 366 else 365
  }

  function DaysInMonth(y: int, m: int): (n: int)
    requires 1 <= m <= 12
    ensures 28 <= n <= 31
  {
    if m == 2 then (if IsLeapYear(y) then 29 else 28)
    else if m == 4 || m == 6 || m == 9 || m == 11 then 30
    else 31
  }

  /** Days of year `y` before the first of month `m`. */
  function DaysBeforeMonth(y: int, m: int): (n: int)
    requires 1 <= m <= 12
    ensures 28 * (m - 1) <= n <= 31 * (m - 1)
  {
    if m == 1 then 0 else DaysBeforeMonth(y, m - 1) + DaysInMonth(y, m - 1)
  }

  lemma DecemberEndsTheYear(y: int)
    ensures DaysBeforeMonth(y, 12) + DaysInMonth(y, 12) == DaysInYear(y)
  {
    assert DaysBeforeMonth(y, 2) == DaysBeforeMonth(y, 1) + DaysInMonth(y, 1);
    assert DaysBeforeMonth(y, 3) == DaysBeforeMonth(y, 2) + DaysInMonth(y, 2);
    assert DaysBeforeMonth(y, 4) == DaysBeforeMonth(y, 3) + DaysInMonth(y, 3);
    assert DaysBeforeMonth(y, 5) == DaysBeforeMonth(y, 4) + DaysInMonth(y, 4);
    assert DaysBeforeMonth(y, 6) == DaysBeforeMonth(y, 5) + DaysInMonth(y, 5);
    assert DaysBeforeMonth(y, 7) == DaysBeforeMonth(y, 6) + DaysInMonth(y, 6);
    assert DaysBeforeMonth(y, 8) == DaysBeforeMonth(y, 7) + DaysInMonth(y, 7);
    assert DaysBeforeMonth(y, 9) == DaysBeforeMonth(y, 8) + DaysInMonth(y, 8);
    assert DaysBeforeMonth(y, 10) == DaysBeforeMonth(y, 9) + DaysInMonth(y, 9);
    assert DaysBeforeMonth(y, 11) == DaysBeforeMonth(y, 10) + DaysInMonth(y, 10);
    assert DaysBeforeMonth(y, 12) == DaysBeforeMonth(y, 11) + DaysInMonth(y, 11);
  }

  /** Days from January 1, 1970 to January 1 of year `y`; negative before 1970. */
  function DaysBeforeYear(y: int): int
    decreases if y < 1970 then 1970 - y else y - 1970
  {
    if y == 1970 then 0
    else if y > 1970 then DaysBeforeYear(y - 1) + DaysInYear(y - 1)
    else DaysBeforeYear(y + 1) - DaysInYear(y)
  }

  /** The year and zero-based day of the year of the day `z` days after January 1
      of year `y` (`z` may be negative). */
  function YearAndDay(z: int, y: int): (r: (int, int))
    ensures 0 <= r.1 < DaysInYear(r.0)
    ensures DaysBeforeYear(r.0) + r.1 == DaysBeforeYear(y) + z
    decreases if z < 0 then 366 - z else z
  {
    if z < 0 then YearAndDay(z + DaysInYear(y - 1), y - 1)
    else if z >= DaysInYear(y) then YearAndDay(z - DaysInYear(y), y + 1)
    else (y, z)
  }

  /** The month and one-based day of month of zero-based day `d` of year `y`,
      searching from month `m` on. */
  function MonthAndDay(d: int, y: int, m: int): (r: (int, int))
    requires 1 <= m <= 12 && 0 <= d
    requires DaysBeforeMonth(y, m) + d < DaysInYear(y)
    ensures m <= r.0 <= 12 && 1 <= r.1 <= DaysInMonth(y, r.0)
    ensures DaysBeforeMonth(y, r.0) + r.1 - 1 == DaysBeforeMonth(y, m) + d
    decreases 12 - m
  {
    if d < DaysInMonth(y, m) then (m, d + 1)
    else
      DecemberEndsTheYear(y);
      MonthAndDay(d - DaysInMonth(y, m), y, m + 1)
  }

  datatype LocalDateTime = LocalDateTime(year: int, month: int, day: int, hour: int, minute: int)

  /** The local calendar date and time of day of instant `t` in a zone `utcOffset`
      seconds ahead of UTC: the date is the local day's count from 1970-01-01
      read back in the Gregorian calendar, and the time is the whole minute of
      that day the instant falls in. */
  function ToLocal(t: int, utcOffset: int): (r: LocalDateTime)
    ensures 1 <= r.month <= 12 && 1 <= r.day <= DaysInMonth(r.year, r.month)
    ensures 0 <= r.hour < 24 && 0 <= r.minute < 60
    ensures DaysBeforeYear(r.year) + DaysBeforeMonth(r.year, r.month) + r.day - 1 == (t + utcOffset) / SecondsPerDay
    ensures var clock := r.hour * 3600 + r.minute * 60;
            clock <= (t + utcOffset) % SecondsPerDay < clock + 60
  {
    var local := t + utcOffset;
    var secondOfDay := local % SecondsPerDay;
    var yd := YearAndDay(local / SecondsPerDay, 1970);
    var md := MonthAndDay(yd.1, yd.0, 1);
    LocalDateTime(yd.0, md.0, md.1, secondOfDay / 3600, secondOfDay % 3600 / 60)
  }

  /** Year of era, which the pattern letter `y` prints: year 0 is 1 BC. */
  function YearOfEra(y: int): (n: nat)
    ensures n >= 1
  {
    if y >= 1 then y else 1 - y
  }

  /** `HH:mm` */
  function FormatHourMinute(lt: LocalDateTime): (s: string)
    requires 0 <= lt.hour < 24 && 0 <= lt.minute < 60
    ensures |s| == 5 && s[2] == ':'
    ensures AllDigits(s[..2]) && ValueOf(s[..2]) == lt.hour
    ensures AllDigits(s[3..]) && ValueOf(s[3..]) == lt.minute
  {
    var hh := ZeroPad(lt.hour, 2);
    var mm := ZeroPad(lt.minute, 2);
    var s := hh + ":" + mm;
    assert s[..2] == hh && s[3..] == mm;
    s
  }

  /** `MM-dd-yyyy`: the key Roam gives a daily-note page. */
  function FormatDateKey(lt: LocalDateTime): (s: string)
    requires 1 <= lt.month <= 12 && 1 <= lt.day <= 31
  {
    ZeroPad(lt.month, 2) + "-" + ZeroPad(lt.day, 2) + "-" + ZeroPad(YearOfEra(lt.year), 4)
  }

  /** Reads a `MM-dd-yyyy` key back into (month, day, year of era). */
  function ParseDateKey(s: string): Option<(nat, nat, nat)>
  {
    if |s| >= 10 && s[2] == '-' && s[5] == '-'
       && AllDigits(s[..2]) && AllDigits(s[3..5]) && AllDigits(s[6..])
    then Some((ValueOf(s[..2]), ValueOf(s[3..5]), ValueOf(s[6..])))
    else None
  }

  /** The daily-note key names its date unambiguously: it reads back to the month,
      the day and the year it was formatted from, and is ten characters long for
      years of era up to 9999. */
  lemma DateKeyRoundTrip(lt: LocalDateTime)
    requires 1 <= lt.month <= 12 && 1 <= lt.day <= 31
    ensures ParseDateKey(FormatDateKey(lt)) == Some((lt.month as nat, lt.day as nat, YearOfEra(lt.year)))
    ensures YearOfEra(lt.year) <= 9999 ==> |FormatDateKey(lt)| == 10
  {
    var mm := ZeroPad(lt.month, 2);
    var dd := ZeroPad(lt.day, 2);
    var yyyy := ZeroPad(YearOfEra(lt.year), 4);
    var s := FormatDateKey(lt);
    assert s == mm + "-" + dd + "-" + yyyy;
    assert s[..2] == mm && s[3..5] == dd && s[6..] == yyyy;
  }
}
