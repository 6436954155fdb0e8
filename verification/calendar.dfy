/**
 * The calendar rule that names the audit period "today" falls in when a
 * request identifies none: spring runs February to July, fall runs August
 * to the following January, and a fall period is named after the year its
 * August falls in.
 */
module Calendar {
  import opened Records

  const Spring := "spring"
  const Fall := "fall"

  /** A month as `Date.getMonth` reports it: 0 is January, 11 is December. */
  type Month = m: int | 0 <= m < 12

  /**
   * "Now" as the gate sees it: the instant compared against audit windows,
   * and the local calendar year and month of that same instant.
   */
  datatype Clock = Clock(instant: int, year: int, month: Month)

  predicate IsHalf(h: string) {
    h == Spring || h == Fall
  }

  /** Months counted from January of year 0; `MonthIndex(y + 1, 0) == MonthIndex(y, 12)`. */
  function MonthIndex(year: int, month: int): int {
    year * 12 + month
  }

  /** The period named `k` covers the months February..July (spring) or August..next January (fall) of its year. */
  predicate Covers(k: PeriodKey, index: int) {
    || (k.half == Spring && MonthIndex(k.year, 1) <= index <= MonthIndex(k.year, 6))
    || (k.half == Fall && MonthIndex(k.year, 7) <= index <= MonthIndex(k.year, 12))
  }

  /** `getAuditPeriodFromDate`: the period that covers the given calendar month. */
  function DefaultPeriod(year: int, month: Month): (k: PeriodKey)
    ensures IsHalf(k.half)
    ensures Covers(k, MonthIndex(year, month))
  {
    var half := if month == 0 then Fall else if month < 7 then Spring else Fall;
    PeriodKey(if month == 0 then year - 1 else year, half)
  }

  /** The default period is the only spring/fall period that covers the month: the halves tile the calendar. */
  lemma DefaultPeriodIsTheCoveringPeriod(year: int, month: Month, k: PeriodKey)
    requires IsHalf(k.half)
    ensures Covers(k, MonthIndex(year, month)) <==> k == DefaultPeriod(year, month)
  {
  }

  /** The month table: January belongs to the previous year's fall, February..July to spring, August..December to fall. */
  lemma DefaultPeriodByMonth(year: int, month: Month)
    ensures month == 0 ==> DefaultPeriod(year, month) == PeriodKey(year - 1, Fall)
    ensures 1 <= month <= 6 ==> DefaultPeriod(year, month) == PeriodKey(year, Spring)
    ensures 7 <= month ==> DefaultPeriod(year, month) == PeriodKey(year, Fall)
  {
  }
}
