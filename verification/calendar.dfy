/** Calendar dates and the month arithmetic the cohort engine uses. */
module Calendar {

  /** An order date. Time of day, if any, plays no part in the engine. */
  datatype Date = Date(year: int, month: int, day: int)

  /** A calendar month as written in the spend input ("YYYY-MM"). */
  datatype YearMonth = YearMonth(year: int, month: int)

  predicate ValidDate(d: Date) {
    1 <= d.month <= 12 && 1 <= d.day <= 31
  }

  /** Chronological order of dates (the order MIN(order_date) uses). */
  predicate OnOrBefore(a: Date, b: Date) {
    || a.year < b.year
    || (a.year == b.year && a.month < b.month)
    || (a.year == b.year && a.month == b.month && a.day <= b.day)
  }

  /** A spend month whose "MM" part names one of the twelve months. */
  predicate ValidYearMonth(ym: YearMonth) {
    1 <= ym.month <= 12
  }

  /**
   * The month key of a year and month: the "YYYY-MM" text, represented by the
   * number of months since year 0.
   */
  function MonthKey(year: int, month: int): int {
    year * 12 + (month - 1)
  }

  /** The month key of a date, the text strftime(date, '%Y-%m') gives. */
  function MonthIndex(d: Date): int {
    MonthKey(d.year, d.month)
  }

  /** The "YYYY-MM" month a key stands for. */
  function YearMonthOfKey(k: int): (ym: YearMonth)
    ensures ValidYearMonth(ym)
    ensures MonthKey(ym.year, ym.month) == k
  {
    YearMonth(k / 12, k % 12 + 1)
  }

  /**
   * For months 1 to 12 the key tells year and month apart, so two "YYYY-MM"
   * texts get the same key exactly when they are the same text.
   */
  lemma MonthKeyInjective(y1: int, m1: int, y2: int, m2: int)
    requires 1 <= m1 <= 12 && 1 <= m2 <= 12
    ensures MonthKey(y1, m1) == MonthKey(y2, m2) <==> y1 == y2 && m1 == m2
  {
    if y1 < y2 {
      assert (y2 - y1) * 12 >= 12;
      assert MonthKey(y2, m2) - MonthKey(y1, m1) == (y2 - y1) * 12 + (m2 - m1);
    } else if y2 < y1 {
      assert (y1 - y2) * 12 >= 12;
      assert MonthKey(y1, m1) - MonthKey(y2, m2) == (y1 - y2) * 12 + (m1 - m2);
    }
  }

  /**
   * date_diff('month', date_trunc('month', from), date_trunc('month', to)):
   * the number of month boundaries between the two months.
   */
  function MonthsBetween(from: Date, to: Date): (r: int)
    ensures r == MonthIndex(to) - MonthIndex(from)
  {
    (to.year - from.year) * 12 + (to.month - from.month)
  }

  /** A date that is no later than another lies in the same or an earlier month. */
  lemma MonthIndexMonotone(a: Date, b: Date)
    requires ValidDate(a) && ValidDate(b)
    requires OnOrBefore(a, b)
    ensures MonthIndex(a) <= MonthIndex(b)
  {
  }
}
