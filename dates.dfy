/** The part of Python's `datetime.date` the bill pipeline relies on: its constructor's range checks. */
module Dates {
  import opened Wrappers

  /** A calendar date, as `datetime.date` holds it. */
  datatype Date = Date(year: int, month: int, day: int)

  /** `date(y, m, d)` raises `ValueError`; the model keeps the offending numbers. */
  datatype DateError = InvalidDate(year: int, month: int, day: int)

  predicate IsLeapYear(y: int) {
    y % 4 == 0 && (y % 100 != 0 || y % 400 == 0)
  }

  function DaysInMonth(y: int, m: int): int
    requires 1 <= m <= 12
  {
    if m == 2 then (if IsLeapYear(y) then 29 else 28)
    else if m == 4 || m == 6 || m == 9 || m == 11 then 30
    else 31
  }

  /** What `date(y, m, d)` accepts: years 1 to 9999, months 1 to 12, days within the month. */
  predicate ValidDate(y: int, m: int, d: int) {
    1 <= y <= 9999 && 1 <= m <= 12 && 1 <= d <= DaysInMonth(y, m)
  }

  predicate ValidDay(d: Date) {
    ValidDate(d.year, d.month, d.day)
  }

  /** `date(y, m, d)`: the date, or the error it raises. */
  function CalendarDate(y: int, m: int, d: int): (r: Result<Option<Date>, DateError>)
    ensures r.Ok? <==> ValidDate(y, m, d)
    ensures r.Ok? ==> r.value == Some(Date(y, m, d))
    ensures r.Err? ==> r.error == InvalidDate(y, m, d)
  {
    if ValidDate(y, m, d) then Ok(Some(Date(y, m, d))) else Err(InvalidDate(y, m, d))
  }

  /** February has a 29th day exactly in Gregorian leap years: 2024 and 2000, not 2023 or 1900. */
  lemma LeapDay()
    ensures CalendarDate(2024, 2, 29).Ok? && CalendarDate(2000, 2, 29).Ok?
    ensures CalendarDate(2023, 2, 29) == Err(InvalidDate(2023, 2, 29))
    ensures CalendarDate(1900, 2, 29) == Err(InvalidDate(1900, 2, 29))
  {
  }
}
