/**
 * The date-range query of the AI progress handlers: both bounds must parse as ISO dates with
 * start not after end, while the stored documents are then filtered by comparing the date
 * strings themselves.
 */
module DateRange {
  import opened Wrappers
  import opened Text

  const InvalidRangeMessage: string := "Invalid date range."

  /**
   * What `datetime.fromisoformat` makes of a bound: the instant `>` compares, and whether the
   * text carried a UTC offset (an aware datetime) or not (a naive one).
   */
  datatype Moment = Moment(instant: int, aware: bool)

  /**
   * Both bounds parse, but one is aware and the other naive: `start > end` raises TypeError,
   * which the handlers' `except ValueError` does not catch.
   */
  predicate MixedRange(parseDate: string -> Option<Moment>, startDate: string, endDate: string)
  {
    parseDate(startDate).Some? && parseDate(endDate).Some?
    && parseDate(startDate).value.aware != parseDate(endDate).value.aware
  }

  /** Both bounds parse, they can be compared, and `start > end` does not hold. */
  predicate ValidRange(parseDate: string -> Option<Moment>, startDate: string, endDate: string)
  {
    parseDate(startDate).Some? && parseDate(endDate).Some? && !MixedRange(parseDate, startDate, endDate)
    && parseDate(startDate).value.instant <= parseDate(endDate).value.instant
  }

  /** The three outcomes of the check, as the handlers answer them. */
  datatype RangeCheck = InRange | BadRange | Incomparable

  /** The `try` block of the handlers: the start is parsed first, then the end, then compared. */
  function CheckRange(parseDate: string -> Option<Moment>, startDate: string, endDate: string): (r: RangeCheck)
    ensures r == InRange <==> ValidRange(parseDate, startDate, endDate)
    ensures r == Incomparable <==> MixedRange(parseDate, startDate, endDate)
  {
    var start := parseDate(startDate);
    var end := parseDate(endDate);
    if start.None? || end.None? then BadRange
    else if start.value.aware != end.value.aware then Incomparable
    else if start.value.instant > end.value.instant then BadRange
    else InRange
  }

  /** `{"date": {"$gte": startDate, "$lte": endDate}}`: string order, both ends included. */
  predicate InDateRange(date: string, startDate: string, endDate: string)
  {
    LexLe(startDate, date) && LexLe(date, endDate)
  }

  /** A parseable date is a valid range on its own, and that range selects exactly that date. */
  lemma {:induction false} SingleDayRange(parseDate: string -> Option<Moment>, day: string, date: string)
    requires parseDate(day).Some?
    ensures ValidRange(parseDate, day, day)
    ensures InDateRange(date, day, day) <==> date == day
  {
    LexLeReflexive(day);
    if InDateRange(date, day, day) {
      LexLeAntisymmetric(date, day);
    }
  }

  /** Both bounds of a range in string order are inside it. */
  lemma {:induction false} RangeIncludesBounds(startDate: string, endDate: string)
    requires LexLe(startDate, endDate)
    ensures InDateRange(startDate, startDate, endDate) && InDateRange(endDate, startDate, endDate)
  {
    LexLeReflexive(startDate);
    LexLeReflexive(endDate);
  }

  /** No date falls in a range whose bounds are out of string order. */
  lemma {:induction false} ReversedRangeIsEmpty(startDate: string, endDate: string, date: string)
    requires !LexLe(startDate, endDate)
    ensures !InDateRange(date, startDate, endDate)
  {
    if InDateRange(date, startDate, endDate) {
      LexLeTransitive(startDate, date, endDate);
    }
  }
}
