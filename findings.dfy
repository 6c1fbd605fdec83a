/**
 * The form mounts with pick-up at `now` plus seven days and return a day later, both
 * keeping the time of day at which the page was loaded, while the calendars hand back
 * midnights. The first two lemmas show two consequences; the midnight-normalised
 * initial state below is the correction, with the intended property proved of it.
 */
module Findings {
  import opened Wrappers
  import opened Calendar
  import opened Pricing
  import opened Booking
  import opened FormProperties

  /** Loaded at any time but midnight, picking the first day the pick-up calendar offers
      (eight days ahead) keeps the initial return, which is later in time but on the same
      calendar day: the oracle and the stored record get the same date twice, and one
      day is charged. */
  lemma SameDayBookingAsWritten(now: Instant, vehicle: Vehicle, oracle: Oracle, isAuthenticated: bool)
    requires !IsMidnight(now)
    ensures var f := InitialForm(now);
            var d := AddDays(StartOfDay(now), 8);
            var g := StartDateChanged(f, vehicle, oracle, Some(d));
            && StartSelectable(now, d)
            && g.endDate == f.endDate
            && FormatIso(g.startDate) == FormatIso(g.endDate)
            && RentalDays(g.startDate, g.endDate) == 1
            && (Evaluate(g, vehicle, isAuthenticated).Ok? ==>
                  Evaluate(g, vehicle, isAuthenticated).value.startDate ==
                  Evaluate(g, vehicle, isAuthenticated).value.endDate)
  {
  }

  /** Loaded at any time but midnight, keeping the initial pick-up and choosing a return
      `k` calendar days later (2 to 7, the days the return calendar offers) charges
      `k - 1` days. */
  lemma ShortChargeAsWritten(now: Instant, k: int, vehicle: Vehicle, oracle: Oracle)
    requires !IsMidnight(now) && 2 <= k <= 7
    ensures var f := InitialForm(now);
            var d := AddDays(StartOfDay(now), 7 + k);
            var g := EndDateChanged(f, vehicle, oracle, Some(d));
            && EndSelectable(f.startDate, d)
            && Day(g.endDate) - Day(g.startDate) == k
            && RentalDays(g.startDate, g.endDate) == k - 1
            && TotalPrice(vehicle.price, g.startDate, g.endDate) == vehicle.price * (k - 1) as real
  {
  }

  /** The corrected initial state: the same days, at their midnights. */
  function InitialFormAtMidnight(now: Instant): (f: Form)
    ensures CalendarConsistent(f) && WithinWeek(f)
    ensures Day(f.startDate) == Day(now) + 7 && Day(f.endDate) == Day(f.startDate) + 1
    ensures !f.isProcessing && f.isVehicleAvailableForDates
    ensures f.phoneNumber == "" && f.guestName == ""
  {
    var start := AddDays(StartOfDay(now), 7);
    Form(start, AddDays(start, 1), false, "", "", true)
  }

  /** A record accepted for dates that are two midnights in order names a return day
      after its pick-up day and is priced by the calendar days between them. */
  lemma AcceptedRecordSpansDays(g: Form, vehicle: Vehicle, isAuthenticated: bool)
    requires CalendarConsistent(g)
    ensures var verdict := Evaluate(g, vehicle, isAuthenticated);
            verdict.Ok? ==>
              verdict.value.startDate.day < verdict.value.endDate.day &&
              verdict.value.amount ==
                vehicle.price * (verdict.value.endDate.day - verdict.value.startDate.day) as real
  {
    RentalDaysOfCalendarDates(g.startDate, g.endDate);
    var b := BookingRecord(g, vehicle, isAuthenticated);
    assert b.startDate.day == Day(g.startDate) && b.endDate.day == Day(g.endDate);
    assert b.amount == vehicle.price * (Day(g.endDate) - Day(g.startDate)) as real;
  }

  /** From the corrected initial state, whatever the user picks in the calendars, a
      record accepted at submission names a return day after its pick-up day and is
      priced by the calendar days between them. */
  lemma ReachableBookingsSpanCalendarDays(now: Instant, vehicle: Vehicle, events: seq<DateEvent>, isAuthenticated: bool)
    requires AllSelectable(InitialFormAtMidnight(now), vehicle, events)
    ensures var g := Replay(InitialFormAtMidnight(now), vehicle, events);
            var verdict := Evaluate(g, vehicle, isAuthenticated);
            verdict.Ok? ==>
              verdict.value.startDate.day < verdict.value.endDate.day &&
              verdict.value.amount ==
                vehicle.price * (verdict.value.endDate.day - verdict.value.startDate.day) as real
  {
    var g := Replay(InitialFormAtMidnight(now), vehicle, events);
    ReplayKeepsCalendarDates(InitialFormAtMidnight(now), vehicle, events);
    AcceptedRecordSpansDays(g, vehicle, isAuthenticated);
  }
}
