/** The calendar arithmetic the dashboard borrows from its date library
    (start and end of a day, a closed interval test, moving by whole days),
    on integer millisecond timestamps with days of fixed length. */
module Time {

  /** Milliseconds in one calendar day. */
  const DayMs: int := 86_400_000

  /** The number of the calendar day a moment falls on. */
  function DayIndex(t: int): int {
    t / DayMs
  }

  /** Midnight at the start of the day of `t`. */
  function StartOfDay(t: int): (r: int)
    ensures r <= t < r + DayMs
    ensures DayIndex(r) == DayIndex(t)
  {
    DayIndex(t) * DayMs
  }

  /** The last millisecond of the day of `t` (23:59:59.999). */
  function EndOfDay(t: int): (r: int)
    ensures StartOfDay(t) <= t <= r
    ensures r == StartOfDay(t) + DayMs - 1
    ensures DayIndex(r) == DayIndex(t)
  {
    StartOfDay(t) + DayMs - 1
  }

  /** Whether `t` lies in the interval from `start` to `end`, both ends included. */
  predicate IsWithinInterval(t: int, start: int, end: int) {
    start <= t <= end
  }

  /** The same time of day `n` days later (`n` may be negative). */
  function AddDays(t: int, n: int): int {
    t + n * DayMs
  }

  /** Moving a moment by `n` days moves its day number by exactly `n`. */
  lemma AddDaysIndex(t: int, n: int)
    ensures DayIndex(AddDays(t, n)) == DayIndex(t) + n
  {
    var q, r := t / DayMs, t % DayMs;
    assert AddDays(t, n) == (q + n) * DayMs + r;
  }

  /** A moment lies between the start of the day of `from` and the end of the
      day of `to` exactly when its day lies between those two days. */
  lemma DayWindow(t: int, from: int, to: int)
    ensures IsWithinInterval(t, StartOfDay(from), EndOfDay(to))
        <==> DayIndex(from) <= DayIndex(t) <= DayIndex(to)
  {
    var a, b, d := DayIndex(from), DayIndex(to), DayIndex(t);
    assert StartOfDay(t) <= t < StartOfDay(t) + DayMs;
    if a <= d {
      assert a * DayMs <= d * DayMs;
    } else {
      assert (d + 1) * DayMs <= a * DayMs;
    }
    if d <= b {
      assert d * DayMs <= b * DayMs;
    } else {
      assert (b + 1) * DayMs <= d * DayMs;
    }
  }
}
