/**
 * Dates as the component handles them. A JavaScript `Date` is an instant counted in
 * milliseconds; here it is counted on the local wall clock, so that the calendar day of
 * an instant is its quotient by the length of a day.
 */
module Calendar {

  /** Milliseconds since the epoch, local wall-clock time. */
  type Instant = int

  const DayMs: int := 86_400_000

  /** The calendar day an instant falls on. */
  function Day(t: Instant): int
  {
    t / DayMs
  }

  /** Dates chosen in the calendar widget are local midnights. */
  predicate IsMidnight(t: Instant)
  {
    t % DayMs == 0
  }

  /** The midnight that starts the calendar day of `t`. */
  function StartOfDay(t: Instant): (r: Instant)
    ensures IsMidnight(r) && Day(r) == Day(t)
    ensures r <= t < r + DayMs
  {
    t - t % DayMs
  }

  /** `addDays(t, n)`: the same time of day, `n` calendar days later. */
  function AddDays(t: Instant, n: int): (r: Instant)
    ensures Day(r) == Day(t) + n
    ensures r % DayMs == t % DayMs
  {
    t + n * DayMs
  }

  /** The `yyyy-MM-dd` text of a date, identified by the calendar day it names. */
  datatype IsoDate = IsoDate(day: int)

  /** `format(t, 'yyyy-MM-dd')`: the calendar day whose span contains `t`. */
  function FormatIso(t: Instant): (r: IsoDate)
    ensures 0 <= t - r.day * DayMs < DayMs
  {
    IsoDate(Day(t))
  }

  /** Two instants print alike exactly when they fall on the same calendar day; in
      particular two different midnights never print alike. */
  lemma FormatIsoSameDay(a: Instant, b: Instant)
    ensures FormatIso(a) == FormatIso(b) <==> Day(a) == Day(b)
    ensures IsMidnight(a) && IsMidnight(b) ==> (FormatIso(a) == FormatIso(b) <==> a == b)
  {
  }

  /** `differenceInDays(later, earlier)`: the number of whole days between two instants,
      with the sign of `later - earlier` and any partial day dropped. */
  function DifferenceInDays(later: Instant, earlier: Instant): (r: int)
    ensures later >= earlier ==> r >= 0 && r * DayMs <= later - earlier < (r + 1) * DayMs
    ensures later < earlier ==> r <= 0 && -r * DayMs <= earlier - later < (-r + 1) * DayMs
  {
    if later >= earlier then (later - earlier) / DayMs else -((earlier - later) / DayMs)
  }

  /** Between two midnights the whole-day difference is the difference of calendar days. */
  lemma MidnightDifference(later: Instant, earlier: Instant)
    requires IsMidnight(later) && IsMidnight(earlier)
    ensures DifferenceInDays(later, earlier) == Day(later) - Day(earlier)
  {
  }
}
