/**
 * The services the core takes from date-fns, from JavaScript's `Date` and from
 * `Number.prototype.toFixed`. Their code is not part of this model, so they are
 * parameters: a `Calendar` bundles the calendar functions (all in the local
 * time zone), a `NumberFormat` the decimal formatting. Instants are
 * milliseconds.
 */
module Platform {

  datatype Calendar = Calendar(
    startOfDay: int -> int,
    endOfDay: int -> int,
    /** `startOfWeek(t, { weekStartsOn: w })` */
    startOfWeek: (int, int) -> int,
    endOfWeek: (int, int) -> int,
    startOfMonth: int -> int,
    endOfMonth: int -> int,
    /** `format(t, pattern)` */
    format: (int, string) -> string,
    /** `getFullYear()` */
    fullYear: int -> int,
    /** `getMonth()`, 0-based */
    month: int -> int,
    /** `new Date(year, monthIndex, day)` with JavaScript's overflow rules */
    makeDate: (int, int, int) -> int)

  datatype NumberFormat = NumberFormat(
    /** `x.toFixed(digits)` */
    toFixed: (real, nat) -> string)

  /**
   * The facts about a Gregorian calendar at the instant `t` that some lemmas
   * rely on: `t` lies in its day, its day in its week (Monday start) and in
   * its month; the month's last day begins before the month ends; day 1 of
   * the month is its start, day 0 of the next month is the start of its last
   * day, and day 1 of the next month follows its last millisecond.
   */
  ghost predicate CalendarLaws(cal: Calendar, t: int)
  {
    && cal.startOfDay(t) <= t <= cal.endOfDay(t)
    && cal.startOfWeek(t, 1) <= cal.startOfDay(t) && cal.endOfDay(t) <= cal.endOfWeek(t, 1)
    && cal.startOfMonth(t) <= cal.startOfDay(t) && cal.endOfDay(t) <= cal.endOfMonth(t)
    && cal.startOfDay(cal.endOfMonth(t)) < cal.endOfMonth(t)
    && cal.makeDate(cal.fullYear(t), cal.month(t), 1) == cal.startOfMonth(t)
    && cal.makeDate(cal.fullYear(t), cal.month(t) + 1, 0) == cal.startOfDay(cal.endOfMonth(t))
    && cal.makeDate(cal.fullYear(t), cal.month(t) + 1, 1) == cal.endOfMonth(t) + 1
  }

  /**
   * A degenerate calendar (every instant ends its own day, which began a
   * millisecond earlier) showing that the laws can be met together.
   */
  function ToyCalendar(): Calendar
  {
    Calendar(
      t => t - 1,
      t => t,
      (t, w) => t - 1,
      (t, w) => t,
      t => t - 1,
      t => t,
      (t, p) => p,
      t => t,
      t => 0,
      (y, m, d) => if m == 1 && d == 1 then y + 1 else y - 1)
  }

  lemma CalendarLawsSatisfiable(t: int)
    ensures exists cal :: CalendarLaws(cal, t)
  {
    assert CalendarLaws(ToyCalendar(), t);
  }
}
