/**
 * The two values the booking form derives from its dates on every render: the rental
 * length in days and the total price.
 */
module Pricing {
  import opened Calendar

  /** `differenceInDays(endDate, startDate) || 1`: whole days elapsed, where a zero
      difference (less than a full day either way) counts as one day and a negative
      difference is passed through unchanged. */
  function RentalDays(start: Instant, end: Instant): (r: int)
    ensures r != 0
    ensures -DayMs < end - start < DayMs ==> r == 1
    ensures end - start >= DayMs ==> r >= 1 && r * DayMs <= end - start < (r + 1) * DayMs
    ensures end - start <= -DayMs ==> r <= -1 && -r * DayMs <= start - end < (-r + 1) * DayMs
  {
    var d := DifferenceInDays(end, start);
    if d != 0 then d else 1
  }

  /** Between two midnights in order, the rental length is the number of calendar days
      from pick-up to return. */
  lemma RentalDaysOfCalendarDates(start: Instant, end: Instant)
    requires IsMidnight(start) && IsMidnight(end) && start < end
    ensures RentalDays(start, end) == Day(end) - Day(start) >= 1
  {
  }

  /** `vehicle.price * rentalDays`, unrounded. Dates less than a day apart either way
      cost one day's price; a rental whose end is not before its start costs at least
      one day's price. */
  function TotalPrice(price: real, start: Instant, end: Instant): (r: real)
    ensures -DayMs < end - start < DayMs ==> r == price
    ensures price >= 0.0 && start <= end ==> r >= price
  {
    var n := RentalDays(start, end);
    assert price * n as real == price + price * (n - 1) as real;
    assert price >= 0.0 && start <= end ==> price * (n - 1) as real >= 0.0;
    price * n as real
  }

  /** For dates picked in the return-date calendar (one to seven days after a midnight
      start), the total is the daily price times the calendar days, between one and
      seven days' price. */
  lemma TotalPriceOfWeekRental(price: real, start: Instant, end: Instant)
    requires price >= 0.0
    requires IsMidnight(start) && IsMidnight(end)
    requires AddDays(start, 1) <= end <= AddDays(start, 7)
    ensures TotalPrice(price, start, end) == price * (Day(end) - Day(start)) as real
    ensures price <= TotalPrice(price, start, end) <= 7.0 * price
  {
    RentalDaysOfCalendarDates(start, end);
    var n := Day(end) - Day(start);
    assert 1 <= n <= 7;
    assert TotalPrice(price, start, end) == price * n as real;
    assert price * (n - 1) as real >= 0.0 && price * (7 - n) as real >= 0.0;
    assert price * n as real == price + price * (n - 1) as real;
    assert price * n as real + price * (7 - n) as real == 7.0 * price;
  }
}
