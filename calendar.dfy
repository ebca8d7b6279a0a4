/** `datetime.utcfromtimestamp(ts).strftime("%Y-%m")`: the month partition
    of a conversation, in the proleptic Gregorian calendar, UTC. */
module Calendar {
  import opened JsonValue
  import opened Outcomes

  const SecondsPerDay := 86400

  /** Days from 0001-01-01 to 1970-01-01. */
  const EpochOrdinal := 719162

  /** The first and last second `datetime` can represent (years 1 to 9999). */
  const MinTimestamp := -62135596800
  const MaxTimestamp := 253402300799

  predicate IsLeap(y: int) {
    y % 4 == 0 && (y % 100 != 0 || y % 400 == 0)
  }

  function YearLength(y: int): int {
    if IsLeap(y) then 366 else 365
  }

  function MonthLength(y: int, m: int): int
    requires 1 <= m <= 12
  {
    if m == 2 then (if IsLeap(y) then 29 else 28)
    else if m == 4 || m == 6 || m == 9 || m == 11 then 30
    else 31
  }

  /** Days from 0001-01-01 to January 1 of year `y`. */
  function DaysBeforeYear(y: int): int
    requires y >= 1
  {
    var n := y - 1;
    365 * n + n / 4 - n / 100 + n / 400
  }

  /** Days from January 1 to the first day of month `m` of year `y`. */
  function DaysBeforeMonth(y: int, m: int): int
    requires 1 <= m <= 12
  {
    if m == 1 then 0 else DaysBeforeMonth(y, m - 1) + MonthLength(y, m - 1)
  }

  /** Day number `ord` (0 is 0001-01-01) lies in month `m` of year `y`. */
  predicate InMonth(ord: int, y: int, m: int) {
    && y >= 1 && 1 <= m <= 12
    && DaysBeforeYear(y) + DaysBeforeMonth(y, m) <= ord
    && ord < DaysBeforeYear(y) + DaysBeforeMonth(y, m) + MonthLength(y, m)
  }

  datatype YearMonth = YearMonth(year: int, month: int)

  lemma YearStep(y: int)
    requires y >= 1
    ensures DaysBeforeYear(y + 1) == DaysBeforeYear(y) + YearLength(y)
  {
    var n := y - 1;
    assert (n + 1) / 4 == n / 4 + (if y % 4 == 0 then 1 else 0);
    assert (n + 1) / 100 == n / 100 + (if y % 100 == 0 then 1 else 0);
    assert (n + 1) / 400 == n / 400 + (if y % 400 == 0 then 1 else 0);
  }

  lemma {:induction false} YearsGrow(y: int, z: int)
    requires 1 <= y <= z
    ensures DaysBeforeYear(z) >= DaysBeforeYear(y) + 365 * (z - y)
    decreases z - y
  {
    if y < z {
      YearsGrow(y + 1, z);
      YearStep(y);
    }
  }

  lemma {:induction false} MonthsGrow(y: int, m: int, k: int)
    requires 1 <= m < k <= 12
    ensures DaysBeforeMonth(y, m) + MonthLength(y, m) <= DaysBeforeMonth(y, k)
    decreases k - m
  {
    if m + 1 < k {
      MonthsGrow(y, m + 1, k);
    }
  }

  lemma YearHasTwelveMonths(y: int)
    ensures DaysBeforeMonth(y, 12) + MonthLength(y, 12) == YearLength(y)
  {
    var leap := if IsLeap(y) then 1 else 0;
    assert DaysBeforeMonth(y, 2) == 31;
    assert DaysBeforeMonth(y, 3) == 59 + leap;
    assert DaysBeforeMonth(y, 4) == 90 + leap;
    assert DaysBeforeMonth(y, 5) == 120 + leap;
    assert DaysBeforeMonth(y, 6) == 151 + leap;
    assert DaysBeforeMonth(y, 7) == 181 + leap;
    assert DaysBeforeMonth(y, 8) == 212 + leap;
    assert DaysBeforeMonth(y, 9) == 243 + leap;
    assert DaysBeforeMonth(y, 10) == 273 + leap;
    assert DaysBeforeMonth(y, 11) == 304 + leap;
    assert DaysBeforeMonth(y, 12) == 334 + leap;
  }

  /** The year holding day `ord`, searched upwards from a year known to
      start no later (see `FindYearSpec`). */
  function FindYear(ord: int, y: int): (r: int)
    requires y >= 1 && DaysBeforeYear(y) <= ord
    ensures r >= y
    decreases ord - DaysBeforeYear(y)
  {
    YearStep(y);
    if ord < DaysBeforeYear(y + 1) then y else FindYear(ord, y + 1)
  }

  lemma {:induction false} FindYearSpec(ord: int, y: int)
    requires y >= 1 && DaysBeforeYear(y) <= ord
    ensures DaysBeforeYear(FindYear(ord, y)) <= ord < DaysBeforeYear(FindYear(ord, y) + 1)
    decreases ord - DaysBeforeYear(y)
  {
    YearStep(y);
    if ord >= DaysBeforeYear(y + 1) {
      FindYearSpec(ord, y + 1);
    }
  }

  /** The month of year `y` holding day `ord`, searched upwards from month
      `m` (see `FindMonthSpec`). */
  function FindMonth(ord: int, y: int, m: int): (r: int)
    requires y >= 1 && 1 <= m <= 12
    requires DaysBeforeYear(y) + DaysBeforeMonth(y, m) <= ord < DaysBeforeYear(y + 1)
    ensures m <= r <= 12
    decreases 12 - m
  {
    YearStep(y);
    YearHasTwelveMonths(y);
    if ord < DaysBeforeYear(y) + DaysBeforeMonth(y, m) + MonthLength(y, m) then m
    else FindMonth(ord, y, m + 1)
  }

  lemma {:induction false} FindMonthSpec(ord: int, y: int, m: int)
    requires y >= 1 && 1 <= m <= 12
    requires DaysBeforeYear(y) + DaysBeforeMonth(y, m) <= ord < DaysBeforeYear(y + 1)
    ensures InMonth(ord, y, FindMonth(ord, y, m))
    decreases 12 - m
  {
    YearStep(y);
    YearHasTwelveMonths(y);
    if ord >= DaysBeforeYear(y) + DaysBeforeMonth(y, m) + MonthLength(y, m) {
      FindMonthSpec(ord, y, m + 1);
    }
  }

  /** A year that starts no later than day `ord`. */
  function StartYear(ord: nat): (r: int)
    ensures r >= 1
  {
    ord / 366 + 1
  }

  lemma StartYearSpec(ord: nat)
    ensures DaysBeforeYear(StartYear(ord)) <= ord
  {
    var n := StartYear(ord) - 1;
    assert n / 100 >= n / 400;
    assert n / 4 <= n;
  }

  /** The calendar month holding day `ord` (see `CivilMonthSpec`). */
  function CivilMonth(ord: nat): (r: YearMonth)
    ensures r.year >= 1 && 1 <= r.month <= 12
  {
    StartYearSpec(ord);
    FindYearSpec(ord, StartYear(ord));
    var y := FindYear(ord, StartYear(ord));
    YearMonth(y, FindMonth(ord, y, 1))
  }

  lemma CivilMonthSpec(ord: nat)
    ensures InMonth(ord, CivilMonth(ord).year, CivilMonth(ord).month)
  {
    StartYearSpec(ord);
    FindYearSpec(ord, StartYear(ord));
    FindMonthSpec(ord, FindYear(ord, StartYear(ord)), 1);
  }

  /** A day lies in exactly one calendar month. */
  lemma MonthIsUnique(ord: int, y: int, m: int, y': int, m': int)
    requires InMonth(ord, y, m) && InMonth(ord, y', m')
    ensures y == y' && m == m'
  {
    InYear(ord, y, m);
    InYear(ord, y', m');
    if y < y' {
      YearsGrow(y + 1, y');
    } else if y' < y {
      YearsGrow(y' + 1, y);
    }
    if m < m' {
      MonthsGrow(y, m, m');
    } else if m' < m {
      MonthsGrow(y, m', m);
    }
  }

  lemma InYear(ord: int, y: int, m: int)
    requires InMonth(ord, y, m)
    ensures DaysBeforeYear(y) <= ord < DaysBeforeYear(y + 1)
  {
    YearStep(y);
    YearHasTwelveMonths(y);
    if m < 12 {
      MonthsGrow(y, m, 12);
    }
    if 1 < m {
      MonthsGrow(y, 1, m);
    }
  }

  /** The day number of a Unix timestamp, 0 being 0001-01-01. */
  function Ordinal(t: int): int {
    t / SecondsPerDay + EpochOrdinal
  }

  /** `datetime.utcfromtimestamp(t)` reduced to its year and month (see
      `MonthOfTimestampSpec`). */
  function MonthOfTimestamp(t: int): (r: Result<YearMonth>)
    ensures r.Success? <==> MinTimestamp <= t <= MaxTimestamp
    ensures r.Success? ==> 1 <= r.value.year <= 9999 && 1 <= r.value.month <= 12
  {
    if MinTimestamp <= t <= MaxTimestamp then
      var ym := CivilMonth(Ordinal(t));
      assert ym.year <= 9999 by {
        CivilMonthSpec(Ordinal(t));
        InYear(Ordinal(t), ym.year, ym.month);
        if ym.year > 9999 {
          YearsGrow(10000, ym.year);
        }
      }
      Success(ym)
    else Failure(TimestampOutOfRange)
  }

  /** The year and month are those of the calendar month the instant
      falls in. */
  lemma MonthOfTimestampSpec(t: int)
    requires MinTimestamp <= t <= MaxTimestamp
    ensures InMonth(Ordinal(t), MonthOfTimestamp(t).value.year, MonthOfTimestamp(t).value.month)
  {
    CivilMonthSpec(Ordinal(t));
  }

  /** `%Y-%m`: the year as four digits, a dash, the month as two digits. */
  function FormatYearMonth(ym: YearMonth): (r: string)
    requires 1 <= ym.year <= 9999 && 1 <= ym.month <= 12
    ensures |r| == 7 && r[4] == '-'
    ensures forall i :: 0 <= i < 7 && i != 4 ==> '0' <= r[i] <= '9'
  {
    var y := ym.year;
    [DigitChar(y / 1000), DigitChar(y / 100 % 10), DigitChar(y / 10 % 10), DigitChar(y % 10), '-',
     DigitChar(ym.month / 10), DigitChar(ym.month % 10)]
  }

  function DigitValue(c: char): int {
    c as int - '0' as int
  }

  /** Reads a `YYYY-MM` partition back into its year and month. */
  function ParseYearMonth(s: string): YearMonth
    requires |s| == 7
  {
    YearMonth(
      1000 * DigitValue(s[0]) + 100 * DigitValue(s[1]) + 10 * DigitValue(s[2]) + DigitValue(s[3]),
      10 * DigitValue(s[5]) + DigitValue(s[6]))
  }

  /** The partition string determines the year and month it was made from. */
  lemma FormatRoundTrip(ym: YearMonth)
    requires 1 <= ym.year <= 9999 && 1 <= ym.month <= 12
    ensures ParseYearMonth(FormatYearMonth(ym)) == ym
  {
    var y, m := ym.year, ym.month;
    var r := FormatYearMonth(ym);
    DigitRoundTrip(y / 1000);
    DigitRoundTrip(y / 100 % 10);
    DigitRoundTrip(y / 10 % 10);
    DigitRoundTrip(y % 10);
    DigitRoundTrip(m / 10);
    DigitRoundTrip(m % 10);
    assert DigitValue(r[0]) == y / 1000;
    assert DigitValue(r[1]) == y / 100 % 10;
    assert DigitValue(r[2]) == y / 10 % 10;
    assert DigitValue(r[3]) == y % 10;
    assert DigitValue(r[5]) == m / 10;
    assert DigitValue(r[6]) == m % 10;
    FourDigits(y);
  }

  lemma FourDigits(y: int)
    requires 0 <= y <= 9999
    ensures 1000 * (y / 1000) + 100 * (y / 100 % 10) + 10 * (y / 10 % 10) + y % 10 == y
  {
    assert y / 100 % 10 == y / 100 - 10 * (y / 1000);
    assert y / 10 % 10 == y / 10 - 10 * (y / 100);
  }

  lemma DigitRoundTrip(d: nat)
    requires d < 10
    ensures DigitValue(DigitChar(d)) == d
  {
    assert "0123456789"[d] as int == '0' as int + d by {
      if d == 0 {} else if d == 1 {} else if d == 2 {} else if d == 3 {} else if d == 4 {}
      else if d == 5 {} else if d == 6 {} else if d == 7 {} else if d == 8 {} else {}
    }
  }

  /** A calendar day. */
  datatype Date = Date(year: int, month: int, day: int)

  /** Day number `ord` is the date `d`. */
  predicate IsDay(ord: int, d: Date) {
    && InMonth(ord, d.year, d.month)
    && ord == DaysBeforeYear(d.year) + DaysBeforeMonth(d.year, d.month) + d.day - 1
  }

  /** `datetime.utcfromtimestamp(t)` reduced to its date (see
      `DateOfTimestampSpec`). */
  function DateOfTimestamp(t: int): (r: Result<Date>)
    ensures r.Success? <==> MinTimestamp <= t <= MaxTimestamp
    ensures r.Success? ==> 1 <= r.value.year <= 9999 && 1 <= r.value.month <= 12 && 1 <= r.value.day <= 31
  {
    match MonthOfTimestamp(t)
    case Failure(e) => Failure(e)
    case Success(ym) =>
      MonthOfTimestampSpec(t);
      Success(Date(ym.year, ym.month, Ordinal(t) - DaysBeforeYear(ym.year) - DaysBeforeMonth(ym.year, ym.month) + 1))
  }

  /** The date is the calendar day the instant falls on. */
  lemma DateOfTimestampSpec(t: int)
    requires MinTimestamp <= t <= MaxTimestamp
    ensures IsDay(Ordinal(t), DateOfTimestamp(t).value)
  {
    MonthOfTimestampSpec(t);
  }

  /** `%Y-%m-%d`: the month partition, a dash, the day as two digits. */
  function FormatDate(d: Date): (r: string)
    requires 1 <= d.year <= 9999 && 1 <= d.month <= 12 && 1 <= d.day <= 31
    ensures |r| == 10 && r[..7] == FormatYearMonth(YearMonth(d.year, d.month)) && r[7] == '-'
  {
    FormatYearMonth(YearMonth(d.year, d.month)) + ['-', DigitChar(d.day / 10), DigitChar(d.day % 10)]
  }

  /** The number of seconds `utcfromtimestamp` reads from a truthy value:
      an integer, or True as 1; anything else is not a number. */
  function Seconds(ts: Json): Result<int> {
    match ts
    case JInt(n) => Success(n)
    case JBool(b) => Success(if b then 1 else 0)
    case _ => Failure(BadTimestamp)
  }

  /** The month partition of a start time: "unknown" when the start time is
      falsy, otherwise the UTC `YYYY-MM` of that instant. */
  function MonthPartition(ts: Json): (r: Result<string>)
    ensures !Truthy(ts) ==> r == Success("unknown")
    ensures Truthy(ts) && (ts.JStr? || ts.JArr? || ts.JObj?) ==> r == Failure(BadTimestamp)
    ensures Truthy(ts) && ts.JInt? ==> (r.Success? <==> MinTimestamp <= ts.n <= MaxTimestamp)
    ensures Truthy(ts) && r.Success? ==> |r.value| == 7 && r.value[4] == '-'
  {
    if !Truthy(ts) then Success("unknown")
    else match Seconds(ts)
      case Failure(e) => Failure(e)
      case Success(t) =>
        match MonthOfTimestamp(t)
        case Failure(e) => Failure(e)
        case Success(ym) => Success(FormatYearMonth(ym))
  }

  /** A truthy in-range timestamp is partitioned by the calendar month it
      falls in, and by no other. */
  lemma PartitionIsCalendarMonth(t: int, y: int, m: int)
    requires t != 0 && MinTimestamp <= t <= MaxTimestamp
    requires InMonth(Ordinal(t), y, m)
    ensures 1 <= y <= 9999
    ensures MonthPartition(JInt(t)) == Success(FormatYearMonth(YearMonth(y, m)))
  {
    var ym := MonthOfTimestamp(t).value;
    MonthOfTimestampSpec(t);
    MonthIsUnique(Ordinal(t), y, m, ym.year, ym.month);
  }

  /** 1710496800 is 2024-03-15T10:00:00Z. */
  lemma MarchExample(t: int)
    requires t == 1710496800
    ensures MonthPartition(JInt(t)) == Success("2024-03")
  {
    assert Ordinal(t) == 738959;
    assert InMonth(738959, 2024, 3) by {
      assert DaysBeforeYear(2024) == 738885;
      assert DaysBeforeMonth(2024, 3) == 60;
    }
    assert FormatYearMonth(YearMonth(2024, 3)) == "2024-03";
    PartitionIsCalendarMonth(t, 2024, 3);
  }
}
