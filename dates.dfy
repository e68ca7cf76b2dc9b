/**
 * Parsed Python `datetime` values. Parsing (`datetime.fromisoformat`) is not
 * modelled: the analyzers receive it as a function from the raw text to an
 * optional `DateTime` (`None` standing for the `ValueError` it raises).
 */
module Dates {
  import opened Wrappers

  const MicrosPerDay: int := 86_400_000_000

  type Month = m: int | 1 <= m <= 12 witness 1

  /** A `datetime`: calendar fields, the time of day in microseconds, and the UTC offset
      in microseconds for an aware value (`None` for a naive one). */
  datatype DateTime = DateTime(year: int, month: Month, day: int, micros: int, offset: Option<int>)

  /** Days from 1970-01-01 to the given day of the proleptic Gregorian calendar. */
  function DayNumber(year: int, month: Month, day: int): int
  {
    var y := if month <= 2 then year - 1 else year;
    YearStart(y) + MonthStart((month + 9) % 12) + day - 1 - 719468
  }

  /** Days from 0000-03-01 to March 1 of year `y`, in whole 400-year eras and the years of
      the current era. */
  function YearStart(y: int): int
  {
    var era := y / 400;
    var yearOfEra := y - era * 400;
    era * 146097 + yearOfEra * 365 + yearOfEra / 4 - yearOfEra / 100
  }

  /** Days from March 1 to the first of the month `shifted` months later. */
  function MonthStart(shifted: int): int
  {
    (153 * shifted + 2) / 5
  }

  /** The reading of the value on its own clock, ignoring any offset. */
  function WallClock(t: DateTime): int
  {
    DayNumber(t.year, t.month, t.day) * MicrosPerDay + t.micros
  }

  /** The point in UTC that an aware value denotes. */
  function Instant(t: DateTime): int
  {
    WallClock(t) - t.offset.GetOr(0)
  }

  /** `a - b` in microseconds. Python compares and subtracts two naive values by their
      clocks and two aware values by their instants; mixing a naive and an aware value
      raises `TypeError`, here `None`. */
  function Diff(a: DateTime, b: DateTime): (r: Option<int>)
    ensures r.None? <==> a.offset.None? != b.offset.None?
  {
    if a.offset.None? && b.offset.None? then Some(WallClock(a) - WallClock(b))
    else if a.offset.Some? && b.offset.Some? then Some(Instant(a) - Instant(b))
    else None
  }

  /** Python's `a <= b` where it does not raise: two naive values compared by their
      clocks, two aware ones by their instants. */
  predicate NotAfter(a: DateTime, b: DateTime)
  {
    || (a.offset.None? && b.offset.None? && WallClock(a) <= WallClock(b))
    || (a.offset.Some? && b.offset.Some? && Instant(a) <= Instant(b))
  }

  /** `t.replace(tzinfo=timezone.utc)`: the same clock reading, stamped as UTC. */
  function AsUtc(t: DateTime): (r: DateTime)
    ensures WallClock(r) == WallClock(t) == Instant(r)
  {
    t.(offset := Some(0))
  }

  /** Two UTC-stamped values always compare, by their clock readings. */
  lemma AsUtcDiff(a: DateTime, b: DateTime)
    ensures Diff(AsUtc(a), AsUtc(b)) == Some(WallClock(a) - WallClock(b))
  {
  }

  /** `t.strftime('%Y-%m')`, kept as the pair it prints. */
  datatype MonthKey = MonthKey(year: int, month: Month)

  function KeyOf(t: DateTime): MonthKey
  {
    MonthKey(t.year, t.month)
  }

  /** The order of the printed keys: by year, then by month. */
  predicate KeyBefore(a: MonthKey, b: MonthKey)
  {
    a.year < b.year || (a.year == b.year && a.month < b.month)
  }

  /** The length of a month in the proleptic Gregorian calendar that `datetime` uses. */
  function DaysInMonth(year: int, month: Month): int
  {
    if month == 2 then (if year % 4 == 0 && (year % 100 != 0 || year % 400 == 0) then 29 else 28)
    else if month == 4 || month == 6 || month == 9 || month == 11 then 30
    else 31
  }

  /** `DayNumber` counts days as `timedelta.days` needs: the last day of a month is
      followed, one day number later, by the first day of the next month (across a year
      end, and after February in leap and common years alike). */
  lemma MonthsAreContiguous(year: int, month: Month)
    ensures month < 12 ==> DayNumber(year, month, DaysInMonth(year, month)) + 1 == DayNumber(year, month + 1, 1)
    ensures month == 12 ==> DayNumber(year, 12, 31) + 1 == DayNumber(year + 1, 1, 1)
  {
    if month == 2 {
      MarchFollowsFebruary(year);
    } else if month == 1 {
      assert DayNumber(year, 1, 31) + 1 == DayNumber(year, 2, 1);
    } else if month < 12 {
      DayOfYearStep(month, DaysInMonth(year, month));
    }
  }

  /** From March on, the month's last day and the next month's first lie in the same
      shifted year, `DaysInMonth` apart. */
  lemma DayOfYearStep(month: Month, days: int)
    requires 3 <= month < 12 && days == (if month == 4 || month == 6 || month == 9 || month == 11 then 30 else 31)
    ensures MonthStart((month + 9) % 12) + days == MonthStart((month + 10) % 12)
  {
  }

  lemma MarchFollowsFebruary(year: int)
    ensures DayNumber(year, 2, DaysInMonth(year, 2)) + 1 == DayNumber(year, 3, 1)
  {
    var d := DaysInMonth(year, 2);
    var era, yoe := (year - 1) / 400, (year - 1) % 400;
    var leap4 := if year % 4 == 0 then 1 else 0;
    var leap100 := if year % 100 == 0 then 1 else 0;
    var leap400 := if year % 400 == 0 then 1 else 0;
    assert d == 28 + leap4 - leap100 + leap400 by {
      LeapDays(year);
    }
    FebruaryDayNumber(year, d);
    MarchFirstDayNumber(year);
    if yoe == 399 {
      LastYearOfEra(year, era);
    } else {
      NextYearOfEra(year, era, yoe);
    }
  }

  /** February has 28 days, one more every fourth year, except every hundredth, except
      every four hundredth. */
  lemma LeapDays(year: int)
    ensures DaysInMonth(year, 2) == 28 + (if year % 4 == 0 then 1 else 0)
      - (if year % 100 == 0 then 1 else 0) + (if year % 400 == 0 then 1 else 0)
  {
    if year % 400 == 0 {
      assert year % 100 == 0 && year % 4 == 0 by {
        assert year == (year / 400) * 400;
      }
    } else if year % 100 == 0 {
      assert year % 4 == 0 by {
        assert year == (year / 100) * 100;
      }
    }
  }

  lemma FebruaryDayNumber(year: int, d: int)
    ensures DayNumber(year, 2, d) == ((year - 1) / 400) * 146097 + ((year - 1) % 400) * 365
              + ((year - 1) % 400) / 4 - ((year - 1) % 400) / 100 + 336 + d - 719468
  {
  }

  lemma MarchFirstDayNumber(year: int)
    ensures DayNumber(year, 3, 1) == (year / 400) * 146097 + (year % 400) * 365
              + (year % 400) / 4 - (year % 400) / 100 - 719468
  {
  }

  lemma LastYearOfEra(year: int, era: int)
    requires year - 1 == era * 400 + 399
    ensures year / 400 == era + 1 && year % 400 == 0
    ensures year % 4 == 0 && year % 100 == 0
  {
  }

  lemma NextYearOfEra(year: int, era: int, yoe: int)
    requires year - 1 == era * 400 + yoe && 0 <= yoe < 399
    ensures year / 400 == era && year % 400 == yoe + 1
    ensures (yoe + 1) / 4 - yoe / 4 == (if year % 4 == 0 then 1 else 0)
    ensures (yoe + 1) / 100 - yoe / 100 == (if year % 100 == 0 then 1 else 0)
  {
  }
}
