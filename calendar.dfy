/**
 * Calendar dates as the backend's date arithmetic sees them.
 *
 * A date is its proleptic Gregorian ordinal, as Python's `date.toordinal()`
 * numbers it: 0001-01-01 is ordinal 1 and was a Monday, and 9999-12-31,
 * the last representable date, is ordinal 3652059. The weekday follows from
 * the ordinal, so no calendar table is needed.
 */
module Calendar {
  const MinOrdinal := 1
  const MaxOrdinal := 3652059

  /** `date.weekday()` numbers Monday as 0 and Sunday as 6; Friday is 4. */
  const Friday := 4

  datatype Date = Date(ordinal: int)

  /** Every value of Python's `date` type lies between `date.min` and `date.max`. */
  predicate InRange(d: Date) {
    MinOrdinal <= d.ordinal <= MaxOrdinal
  }

  /** `date.weekday()`: Monday = 0 .. Sunday = 6. */
  function Weekday(d: Date): (w: int)
    ensures 0 <= w < 7
    ensures d.ordinal == MinOrdinal ==> w == 0
  {
    (d.ordinal + 6) % 7
  }

  /** `d + timedelta(days=n)`. */
  function AddDays(d: Date, n: int): Date {
    Date(d.ordinal + n)
  }

  /** Counting forward from `d`, the weekday advances by one each day and wraps after Sunday. */
  lemma WeekdayAhead(d: Date, k: int)
    requires d.ordinal <= k
    ensures Weekday(Date(k)) == (Weekday(d) + (k - d.ordinal)) % 7
  {
  }

  /**
   * `next_friday(today)`: the first Friday on or after `today`. A Friday is
   * its own next Friday; no other day is. The date never leaves the
   * representable range, because `date.max` is itself a Friday.
   */
  function NextFriday(today: Date): (r: Date)
    requires InRange(today)
    ensures InRange(r)
    ensures Weekday(r) == Friday
    ensures today.ordinal <= r.ordinal <= today.ordinal + 6
    ensures r == today <==> Weekday(today) == Friday
    ensures forall k :: today.ordinal <= k < r.ordinal ==> Weekday(Date(k)) != Friday
  {
    // Python's % with a positive divisor never returns a negative number,
    // which is also what Dafny's % does.
    var daysAhead := (Friday - Weekday(today)) % 7;
    assert Weekday(AddDays(today, daysAhead)) == Friday by {
      WeekdayAhead(today, today.ordinal + daysAhead);
    }
    assert forall k :: today.ordinal <= k < today.ordinal + daysAhead ==> Weekday(Date(k)) != Friday by {
      forall k | today.ordinal <= k < today.ordinal + daysAhead
        ensures Weekday(Date(k)) != Friday
      {
        WeekdayAhead(today, k);
      }
    }
    assert Weekday(Date(MaxOrdinal)) == Friday;
    if daysAhead == 0 then today else AddDays(today, daysAhead)
  }
}
