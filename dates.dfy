/**
 * Calendar days as the ledgers store them: the `YYYY-MM-DD` value of a date
 * input. `new Date(a) - new Date(b)` and `new Date(a) <= new Date(b)` compare
 * two such days by their position in time, which the ordinal below preserves.
 */
module Dates {

  datatype CalendarDate = CalendarDate(year: int, month: int, day: int)

  /** What a date input can hold: a month 1..12 and a day 1..31. */
  predicate ValidDate(d: CalendarDate) {
    1 <= d.month <= 12 && 1 <= d.day <= 31
  }

  /** The calendar order: by year, then month, then day. */
  predicate Before(a: CalendarDate, b: CalendarDate) {
    a.year < b.year || (a.year == b.year && (a.month < b.month || (a.month == b.month && a.day < b.day)))
  }

  /** A number that grows with the date (gaps where a month has fewer than 31 days do not matter for comparisons). */
  function Ordinal(d: CalendarDate): int {
    d.year * 372 + d.month * 31 + d.day
  }

  /** Comparing ordinals is comparing dates. */
  lemma OrdinalOrder(a: CalendarDate, b: CalendarDate)
    requires ValidDate(a) && ValidDate(b)
    ensures Ordinal(a) < Ordinal(b) <==> Before(a, b)
    ensures Ordinal(a) == Ordinal(b) <==> a == b
  {
    var ma := a.month * 31 + a.day;
    var mb := b.month * 31 + b.day;
    assert 32 <= ma <= 403 && 32 <= mb <= 403;
    if a.year < b.year {
      YearsApart(a.year, b.year);
    } else if b.year < a.year {
      YearsApart(b.year, a.year);
    } else if a.month < b.month {
      assert a.month * 31 + 31 <= b.month * 31;
    } else if b.month < a.month {
      assert b.month * 31 + 31 <= a.month * 31;
    }
  }

  lemma YearsApart(x: int, y: int)
    requires x < y
    ensures x * 372 + 372 <= y * 372
  {
  }

  /** Sorting key for "newest first": a larger date gets a smaller key. */
  function NewestFirst(d: CalendarDate): int {
    -Ordinal(d)
  }
}
