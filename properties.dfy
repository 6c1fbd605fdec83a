/**
 * What the handlers keep and what they do not: the order of the two dates, the
 * one-week bound, and the dates the form can reach from its initial state.
 */
module FormProperties {
  import opened Wrappers
  import opened Calendar
  import opened Pricing
  import opened Booking

  /** A pick-up date chosen in its calendar keeps the dates in order. */
  lemma StartChangeKeepsOrder(f: Form, vehicle: Vehicle, oracle: Oracle, today: Instant, d: Instant)
    requires CalendarConsistent(f) && StartSelectable(today, d)
    ensures CalendarConsistent(StartDateChanged(f, vehicle, oracle, Some(d)))
  {
  }

  /** In any state, a return date chosen in its calendar puts the return after the
      pick-up and keeps the rental within a week. */
  lemma EndChangeKeepsOrder(f: Form, vehicle: Vehicle, oracle: Oracle, d: Instant)
    requires EndSelectable(f.startDate, d)
    ensures var g := EndDateChanged(f, vehicle, oracle, Some(d));
            g.startDate < g.endDate && WithinWeek(g)
  {
  }

  /** A return date chosen in its calendar keeps midnight dates in order and the rental
      within a week. */
  lemma EndChangeKeepsOrderAndWeek(f: Form, vehicle: Vehicle, oracle: Oracle, d: Instant)
    requires CalendarConsistent(f) && EndSelectable(f.startDate, d)
    ensures CalendarConsistent(EndDateChanged(f, vehicle, oracle, Some(d)))
    ensures WithinWeek(EndDateChanged(f, vehicle, oracle, Some(d)))
  {
  }

  /** After a pick-up change the rental is within a week exactly when the old return was
      at most a week after the new pick-up. */
  lemma StartChangeWeekBound(f: Form, vehicle: Vehicle, oracle: Oracle, d: Instant)
    ensures WithinWeek(StartDateChanged(f, vehicle, oracle, Some(d))) <==> f.endDate <= AddDays(d, 7)
  {
  }

  /** Moving the pick-up later never breaks the one-week bound. */
  lemma StartChangeLaterKeepsWeek(f: Form, vehicle: Vehicle, oracle: Oracle, d: Instant)
    requires WithinWeek(f) && f.startDate <= d
    ensures WithinWeek(StartDateChanged(f, vehicle, oracle, Some(d)))
  {
  }

  /** Moving the pick-up earlier can break it, from the state the form mounts with. Loaded
      at midnight on day 0, the user picks a pick-up on day 10 (the return moves to day
      11), then a return on day 17, then moves the pick-up to day 9. Every pick is one its
      calendar offers; the rental before the last pick lasts seven days and after it
      eight, and the price follows. */
  lemma StartChangeCanBreakWeek(vehicle: Vehicle, oracle: Oracle)
    ensures var events := [StartPicked(Some(AddDays(0, 10)), 0, oracle),
                           EndPicked(Some(AddDays(0, 17)), oracle),
                           StartPicked(Some(AddDays(0, 9)), 0, oracle)];
            var f := Replay(InitialForm(0), vehicle, events[..2]);
            var g := Replay(InitialForm(0), vehicle, events);
            && AllSelectable(InitialForm(0), vehicle, events)
            && CalendarConsistent(f) && WithinWeek(f)
            && CalendarConsistent(g) && !WithinWeek(g)
            && RentalDays(g.startDate, g.endDate) == 8
            && TotalPrice(vehicle.price, g.startDate, g.endDate) == vehicle.price * 8.0
  {
    var e0 := StartPicked(Some(AddDays(0, 10)), 0, oracle);
    var e1 := EndPicked(Some(AddDays(0, 17)), oracle);
    var e2 := StartPicked(Some(AddDays(0, 9)), 0, oracle);
    var events := [e0, e1, e2];
    var f0 := InitialForm(0);
    var f1 := Step(f0, vehicle, e0);
    var f2 := Step(f1, vehicle, e1);
    var f3 := Step(f2, vehicle, e2);
    assert f1.startDate == AddDays(0, 10) && f1.endDate == AddDays(0, 11);
    assert f2.startDate == AddDays(0, 10) && f2.endDate == AddDays(0, 17);
    assert f3.startDate == AddDays(0, 9) && f3.endDate == AddDays(0, 17);
    assert events[1..] == [e1, e2] && events[2..] == [e2] && events[..2] == [e0, e1];
    assert [e0, e1][1..] == [e1];
    assert Replay(f1, vehicle, [e1]) == Replay(f2, vehicle, []) == f2;
    assert Replay(f0, vehicle, [e0, e1]) == Replay(f1, vehicle, [e1]);
    assert Replay(f2, vehicle, [e2]) == Replay(f3, vehicle, []) == f3;
    assert Replay(f1, vehicle, [e1, e2]) == Replay(f2, vehicle, [e2]);
    assert Replay(f0, vehicle, events) == Replay(f1, vehicle, [e1, e2]);
    assert AllSelectable(f2, vehicle, [e2]);
    assert AllSelectable(f1, vehicle, [e1, e2]);
  }

  /** One user action on the dates: a pick in either calendar (None when a selection is
      cleared), with the render's `today` for the pick-up calendar and the availability
      oracle as it stands at that moment. */
  datatype DateEvent =
    | StartPicked(date: Option<Instant>, today: Instant, startOracle: Oracle)
    | EndPicked(date: Option<Instant>, endOracle: Oracle)

  /** Whether the calendar that produced the event lets its date through. */
  predicate Selectable(f: Form, e: DateEvent)
  {
    match e
    case StartPicked(date, today, _) => date.Some? ==> StartSelectable(today, date.value)
    case EndPicked(date, _) => date.Some? ==> EndSelectable(f.startDate, date.value)
  }

  /** The state after one event. */
  function Step(f: Form, vehicle: Vehicle, e: DateEvent): Form
  {
    match e
    case StartPicked(date, _, oracle) => StartDateChanged(f, vehicle, oracle, date)
    case EndPicked(date, oracle) => EndDateChanged(f, vehicle, oracle, date)
  }

  /** The state after a sequence of events. */
  function Replay(f: Form, vehicle: Vehicle, events: seq<DateEvent>): Form
    decreases |events|
  {
    if events == [] then f else Replay(Step(f, vehicle, events[0]), vehicle, events[1..])
  }

  /** Every event is one its calendar lets through, in the state it meets. */
  predicate AllSelectable(f: Form, vehicle: Vehicle, events: seq<DateEvent>)
    decreases |events|
  {
    events == [] ||
    (Selectable(f, events[0]) && AllSelectable(Step(f, vehicle, events[0]), vehicle, events[1..]))
  }

  /** From any state with the return after the pick-up, such as the one the form mounts
      with, any sequence of calendar picks keeps the return after the pick-up. */
  lemma {:induction false} ReplayKeepsOrder(f: Form, vehicle: Vehicle, events: seq<DateEvent>)
    requires f.startDate < f.endDate && AllSelectable(f, vehicle, events)
    ensures Replay(f, vehicle, events).startDate < Replay(f, vehicle, events).endDate
    decreases |events|
  {
    if events != [] {
      var g := Step(f, vehicle, events[0]);
      match events[0] {
        case StartPicked(date, today, oracle) =>
        case EndPicked(date, oracle) =>
          if date.Some? {
            EndChangeKeepsOrder(f, vehicle, oracle, date.value);
          }
      }
      ReplayKeepsOrder(g, vehicle, events[1..]);
    }
  }

  /** Any sequence of calendar picks keeps the dates two midnights in order, so the
      dates sent to the oracle and stored name different days, the later one last, and
      the rental length is the number of calendar days between them. */
  lemma {:induction false} ReplayKeepsCalendarDates(f: Form, vehicle: Vehicle, events: seq<DateEvent>)
    requires CalendarConsistent(f) && AllSelectable(f, vehicle, events)
    ensures CalendarConsistent(Replay(f, vehicle, events))
    ensures var g := Replay(f, vehicle, events);
            FormatIso(g.startDate).day < FormatIso(g.endDate).day &&
            RentalDays(g.startDate, g.endDate) == Day(g.endDate) - Day(g.startDate)
    decreases |events|
  {
    if events == [] {
      RentalDaysOfCalendarDates(f.startDate, f.endDate);
    } else {
      var g := Step(f, vehicle, events[0]);
      match events[0] {
        case StartPicked(date, today, oracle) =>
          if date.Some? {
            StartChangeKeepsOrder(f, vehicle, oracle, today, date.value);
          }
        case EndPicked(date, oracle) =>
          if date.Some? {
            EndChangeKeepsOrderAndWeek(f, vehicle, oracle, date.value);
          }
      }
      ReplayKeepsCalendarDates(g, vehicle, events[1..]);
    }
  }
}
