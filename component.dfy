/**
 * The booking form component: its state hooks as fields, its handlers as methods that
 * update them one setter at a time. Each handler is specified by the transition of
 * module Booking it performs; the calendar widgets' `disabled` rules are the handlers'
 * preconditions, since those widgets are the handlers' only callers.
 */
module Component {
  import opened Wrappers
  import opened Calendar
  import opened Booking

  class BookingForm {
    const vehicle: Vehicle
    var startDate: Instant
    var endDate: Instant
    var isProcessing: bool
    var phoneNumber: string
    var guestName: string
    var isVehicleAvailableForDates: bool

    /** The state hooks as one value. */
    function State(): Form
      reads this
    {
      Form(startDate, endDate, isProcessing, phoneNumber, guestName, isVehicleAvailableForDates)
    }

    /** The return is after the pick-up. */
    predicate Valid()
      reads this
    {
      startDate < endDate
    }

    /** Mounting: the initial state, then the effect on the current `user`. */
    constructor (vehicle: Vehicle, now: Instant, user: Option<User>, oracle: Oracle)
      ensures Valid()
      ensures this.vehicle == vehicle
      ensures State() == UserEffect(InitialForm(now), vehicle, oracle, user)
    {
      var initial := InitialForm(now);
      this.vehicle := vehicle;
      startDate := initial.startDate;
      endDate := initial.endDate;
      isProcessing := false;
      phoneNumber := "";
      guestName := "";
      isVehicleAvailableForDates := true;
      new;
      ApplyUser(user, oracle);
    }

    /** The effect on `user`: the profile phone, if any, then an availability check. */
    method ApplyUser(user: Option<User>, oracle: Oracle)
      modifies this
      ensures State() == UserEffect(old(State()), vehicle, oracle, user)
    {
      if HasProfilePhone(user) {
        phoneNumber := user.value.phone.value;
      }
      CheckVehicleAvailability(startDate, endDate, oracle);
    }

    /** `checkVehicleAvailability(start, end)`: ask the oracle, keep its answer. */
    method CheckVehicleAvailability(start: Instant, end: Instant, oracle: Oracle)
      modifies this`isVehicleAvailableForDates
      ensures isVehicleAvailableForDates == Availability(vehicle, oracle, start, end)
    {
      isVehicleAvailableForDates := oracle(vehicle.id, FormatIso(start), FormatIso(end));
    }

    /** `handleStartDateChange(date)`, for a date the pick-up calendar lets through. */
    method HandleStartDateChange(date: Option<Instant>, today: Instant, oracle: Oracle)
      requires Valid()
      requires date.Some? ==> StartSelectable(today, date.value)
      modifies this
      ensures Valid()
      ensures State() == StartDateChanged(old(State()), vehicle, oracle, date)
    {
      if date.Some? {
        var d := date.value;
        startDate := d;
        if endDate <= d {
          var newEndDate := AddDays(d, 1);
          endDate := newEndDate;
          CheckVehicleAvailability(d, newEndDate, oracle);
        } else {
          CheckVehicleAvailability(d, endDate, oracle);
        }
      }
    }

    /** `handleEndDateChange(date)`, for a date the return calendar lets through. */
    method HandleEndDateChange(date: Option<Instant>, oracle: Oracle)
      requires Valid()
      requires date.Some? ==> EndSelectable(startDate, date.value)
      modifies this
      ensures Valid()
      ensures date.Some? ==> WithinWeek(State())
      ensures State() == EndDateChanged(old(State()), vehicle, oracle, date)
    {
      if date.Some? {
        endDate := date.value;
        CheckVehicleAvailability(startDate, date.value, oracle);
      }
    }

    /** The phone input's `onChange`. */
    method SetPhoneNumber(value: string)
      modifies this
      ensures State() == old(State()).(phoneNumber := value)
    {
      phoneNumber := value;
    }

    /** The guest-name input's `onChange`. */
    method SetGuestName(value: string)
      modifies this
      ensures State() == old(State()).(guestName := value)
    {
      guestName := value;
    }

    /** `handleBooking()`. A refusal changes nothing and returns `Rejected`, which carries
        no store result; an accepted record is handed to `addBooking` with `isProcessing` raised, and
        `isProcessing` is lowered again when the store keeps nothing (it returns no
        record or throws, both `None` here). */
    method HandleBooking<B>(isAuthenticated: bool, addBooking: NewBooking -> Option<B>)
      returns (outcome: Submission<B>)
      modifies this
      ensures Evaluate(old(State()), vehicle, isAuthenticated).Err? ==>
        outcome == Rejected(Evaluate(old(State()), vehicle, isAuthenticated).error) &&
        State() == old(State())
      ensures Evaluate(old(State()), vehicle, isAuthenticated).Ok? ==>
        var request := Evaluate(old(State()), vehicle, isAuthenticated).value;
        && (addBooking(request).Some? ==> outcome == Booked(request, addBooking(request).value))
        && (addBooking(request).None? ==> outcome == StoreFailed(request))
        && State() == old(State()).(isProcessing := addBooking(request).Some?)
    {
      var verdict := Evaluate(State(), vehicle, isAuthenticated);
      if verdict.Err? {
        return Rejected(verdict.error);
      }
      isProcessing := true;
      var booking := addBooking(verdict.value);
      if booking.Some? {
        outcome := Booked(verdict.value, booking.value);
      } else {
        isProcessing := false;
        outcome := StoreFailed(verdict.value);
      }
    }

    /** Whether the booking button can be pressed
        (`disabled={isProcessing || !isVehicleAvailableForDates}`): exactly when no
        submission is in flight and a signed-in user's submission would be accepted. When
        it can, the availability guard of `handleBooking` passes; while a submission is in
        flight it cannot. */
    function CanSubmit(): (enabled: bool)
      reads this
      ensures enabled <==> !isProcessing && Evaluate(State(), vehicle, true).Ok?
      ensures isProcessing ==> !enabled
      ensures enabled ==> Evaluate(State(), vehicle, false) != Err(VehicleUnavailable)
      ensures enabled ==> Evaluate(State(), vehicle, true).Ok?
      ensures !enabled ==> isProcessing || Evaluate(State(), vehicle, true) == Err(VehicleUnavailable)
    {
      !isProcessing && isVehicleAvailableForDates
    }
  }
}
