// The range of a Python datetime, counted in days of the Gregorian calendar.
module Calendar {
  import opened PythonValues

  function YearDays(year: nat): nat {
    if year % 4 == 0 && (year % 100 != 0 || year % 400 == 0) then 366 else 365
  }

  // Days from the first day of year 1 to the first day of this year.
  function DaysTo(year: nat): nat {
    if year <= 1 then 0 else DaysTo(year - 1) + YearDays(year - 1)
  }

  const DAY: int := 86_400_000   // milliseconds
  const EPOCH: nat := 1970
  const FIRST: nat := 1
  const LAST: nat := 9999

  // The first millisecond of a year, counted from 1970.
  function StartOf(year: nat): int {
    (DaysTo(year) - DaysTo(EPOCH)) * DAY
  }

  // Every fourth year but the centuries, of which every fourth again.
  function LeapYears(n: nat): int {
    n / 4 - n / 100 + n / 400
  }

  lemma OneMoreYear(year: nat)
    requires year >= 1
    ensures 365 + LeapYears(year) - LeapYears(year - 1) == YearDays(year)
  {
    assert year % 100 == 0 ==> year % 4 == 0;
    assert year % 400 == 0 ==> year % 100 == 0;
    assert year / 4 == (year - 1) / 4 + (if year % 4 == 0 then 1 else 0);
    assert year / 100 == (year - 1) / 100 + (if year % 100 == 0 then 1 else 0);
    assert year / 400 == (year - 1) / 400 + (if year % 400 == 0 then 1 else 0);
  }

  lemma {:induction false} DaysCounted(year: nat)
    requires year >= 1
    ensures DaysTo(year) == 365 * (year - 1) + LeapYears(year - 1)
    decreases year
  {
    if year > 1 {
      DaysCounted(year - 1);
      OneMoreYear(year - 1);
    }
  }

  lemma DaysAround()
    ensures DaysTo(FIRST) == 0 && DaysTo(EPOCH) == 719162 && DaysTo(LAST + 1) == 3652059
  {
    DaysCounted(EPOCH);
    DaysCounted(LAST + 1);
  }

  // A datetime exists for exactly the milliseconds of the years 1 to 9999.
  lemma DatetimesAreYears1To9999(ms: int)
    ensures DateInRange(ms) <==> StartOf(FIRST) <= ms < StartOf(LAST + 1)
  {
    DaysAround();
    assert StartOf(FIRST) == -719162 * DAY && StartOf(LAST + 1) == (3652059 - 719162) * DAY;
  }
}
