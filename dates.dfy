/** Calendar dates as proleptic Gregorian day ordinals (Python's
    `date.toordinal()`), so that `d - timedelta(days=k)` is `d - k`. */
module Dates {
  import opened Wrappers

  type Date = int

  predicate IsLeap(y: int) {
    y % 4 == 0 && (y % 100 != 0 || y % 400 == 0)
  }

  function DaysInMonth(y: int, m: int): (n: int)
    requires 1 <= m <= 12
    ensures 28 <= n <= 31
  {
    if m == 2 then (if IsLeap(y) then 29 else 28)
    else if m == 4 || m == 6 || m == 9 || m == 11 then 30
    else 31
  }

  function DaysBeforeMonth(y: int, m: int): (n: int)
    requires 1 <= m <= 12
    ensures 0 <= n <= 31 * (m - 1)
  {
    if m == 1 then 0 else DaysBeforeMonth(y, m - 1) + DaysInMonth(y, m - 1)
  }

  function DaysBeforeYear(y: int): (n: int)
    requires y >= 1
    ensures n >= 0
  {
    var p := y - 1;
    365 * p + p / 4 - p / 100 + p / 400
  }

  /** `datetime.strptime(text, format).date()`, `None` where it raises. */
  type Strptime = (string, string) -> Option<Date>

  predicate ValidDate(y: int, m: int, d: int) {
    1 <= y <= 9999 && 1 <= m <= 12 && 1 <= d <= DaysInMonth(y, m)
  }

  /** Python's `date(y, m, d)`: `None` where Python raises `ValueError`. */
  function MakeDate(y: int, m: int, d: int): (r: Option<Date>)
    ensures r.Some? <==> ValidDate(y, m, d)
    ensures r.Some? ==> r.value >= 1
  {
    if ValidDate(y, m, d) then Some(DaysBeforeYear(y) + DaysBeforeMonth(y, m) + d) else None
  }
}
