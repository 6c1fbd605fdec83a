/**
 * The booking form's state, its transitions and its submission verdict, as values.
 * The component class in module Component performs these transitions step by step;
 * the functions here say what each step amounts to.
 */
module Booking {
  import opened Wrappers
  import opened Text
  import opened Calendar
  import opened Pricing

  /** The catalogue entry being booked (the fields the form reads). */
  datatype Vehicle = Vehicle(id: string, brand: string, name: string, price: real, images: seq<string>)

  /** The signed-in user, as far as the form reads it: an optional profile phone. */
  datatype User = User(phone: Option<string>)

  /** `isVehicleAvailable(vehicleId, startDateStr, endDateStr)` from the shared context. */
  type Oracle = (string, IsoDate, IsoDate) -> bool

  /** The component's state hooks. */
  datatype Form = Form(
    startDate: Instant,
    endDate: Instant,
    isProcessing: bool,
    phoneNumber: string,
    guestName: string,
    isVehicleAvailableForDates: bool)

  /** The status given to every booking the form creates ("upcoming"). */
  const UpcomingStatus: string := "à venir"

  /** The record handed to `addBooking`. */
  datatype NewBooking = NewBooking(
    vehicleId: string,
    vehicleName: string,
    startDate: IsoDate,
    endDate: IsoDate,
    status: string,
    amount: real,
    imageUrl: Option<string>,
    guestName: Option<string>,
    guestPhone: Option<string>)

  /** Why a submission was refused, one per guard of `handleBooking`. */
  datatype Rejection = VehicleUnavailable | MissingPhone | MissingName

  /** What one press of the booking button led to: a refusal (the store is not called),
      a record the store did not keep, or a record it kept as `booking`. */
  datatype Submission<B> =
    | Rejected(reason: Rejection)
    | StoreFailed(request: NewBooking)
    | Booked(request: NewBooking, booking: B)

  /** Dates as the calendar widgets produce them: two midnights, the return after the
      pick-up. */
  predicate CalendarConsistent(f: Form)
  {
    IsMidnight(f.startDate) && IsMidnight(f.endDate) && f.startDate < f.endDate
  }

  /** The rental lasts at most a week. */
  predicate WithinWeek(f: Form)
  {
    f.endDate <= AddDays(f.startDate, 7)
  }

  /** The dates the pick-up calendar lets through: midnights not before `today` plus
      seven days. Unless `today` is itself a midnight, the seventh day is refused and the
      first day offered is the eighth. */
  predicate StartSelectable(today: Instant, d: Instant)
    ensures StartSelectable(today, d) <==>
      IsMidnight(d) && Day(d) >= Day(today) + (if IsMidnight(today) then 7 else 8)
  {
    IsMidnight(d) && !(d < AddDays(today, 7))
  }

  /** The dates the return calendar lets through: midnights from one to seven days after
      the pick-up instant. After a pick-up that is not a midnight, the next calendar day
      is refused. */
  predicate EndSelectable(start: Instant, d: Instant)
    ensures EndSelectable(start, d) ==> start < d && Day(d) - Day(start) <= 7
    ensures EndSelectable(start, d) <==>
      IsMidnight(d) && (if IsMidnight(start) then 1 else 2) <= Day(d) - Day(start) <= 7
  {
    IsMidnight(d) && !(d < AddDays(start, 1) || d > AddDays(start, 7))
  }

  /** The state the form mounts with: `startDate = addDays(today, 7)` and
      `endDate = addDays(startDate, 1)`, with `today` the instant of the first render, so
      both dates keep the time of day of the load; no guest details, availability assumed
      until checked. */
  function InitialForm(now: Instant): (f: Form)
    ensures f.startDate < f.endDate && WithinWeek(f)
    ensures f.startDate % DayMs == now % DayMs && f.endDate % DayMs == now % DayMs
    ensures Day(f.startDate) == Day(now) + 7 && Day(f.endDate) == Day(now) + 8
    ensures !f.isProcessing && f.isVehicleAvailableForDates
    ensures f.phoneNumber == "" && f.guestName == ""
  {
    var start := AddDays(now, 7);
    Form(start, AddDays(start, 1), false, "", "", true)
  }

  /** What `checkVehicleAvailability(start, end)` stores: the oracle's answer for this
      vehicle and the two dates printed as `yyyy-MM-dd`: the oracle sees only the
      calendar days of the two instants. */
  function Availability(vehicle: Vehicle, oracle: Oracle, start: Instant, end: Instant): (r: bool)
    ensures r == oracle(vehicle.id, IsoDate(Day(start)), IsoDate(Day(end)))
  {
    oracle(vehicle.id, FormatIso(start), FormatIso(end))
  }

  /** A profile phone is used when it is present and not empty (`if (user?.phone)`). */
  predicate HasProfilePhone(user: Option<User>)
  {
    user.Some? && user.value.phone.Some? && user.value.phone.value != ""
  }

  /** The effect run on mount and whenever `user` changes: copy the profile phone into
      the form, then re-check availability for the current dates. */
  function UserEffect(f: Form, vehicle: Vehicle, oracle: Oracle, user: Option<User>): (r: Form)
    ensures HasProfilePhone(user) ==> r.phoneNumber == user.value.phone.value
    ensures !HasProfilePhone(user) ==> r.phoneNumber == f.phoneNumber
    ensures r.isVehicleAvailableForDates == Availability(vehicle, oracle, r.startDate, r.endDate)
    ensures r.(phoneNumber := f.phoneNumber, isVehicleAvailableForDates := f.isVehicleAvailableForDates) == f
  {
    var phone := if HasProfilePhone(user) then user.value.phone.value else f.phoneNumber;
    f.(phoneNumber := phone,
       isVehicleAvailableForDates := Availability(vehicle, oracle, f.startDate, f.endDate))
  }

  /** `handleStartDateChange(date)`: a cleared selection changes nothing; otherwise the
      pick-up moves to `date`, the return is pushed to the day after it unless it is still
      strictly later, and availability is asked afresh for the new pair. */
  function StartDateChanged(f: Form, vehicle: Vehicle, oracle: Oracle, date: Option<Instant>): (r: Form)
    ensures date.None? ==> r == f
    ensures date.Some? ==> r.startDate == date.value && r.startDate < r.endDate
    ensures date.Some? && f.endDate > date.value ==> r.endDate == f.endDate
    ensures date.Some? && f.endDate <= date.value ==> r.endDate == AddDays(date.value, 1)
    ensures date.Some? ==>
      r.isVehicleAvailableForDates == Availability(vehicle, oracle, r.startDate, r.endDate)
    ensures r.(startDate := f.startDate, endDate := f.endDate,
               isVehicleAvailableForDates := f.isVehicleAvailableForDates) == f
  {
    match date
    case None => f
    case Some(d) =>
      var end := if f.endDate <= d then AddDays(d, 1) else f.endDate;
      f.(startDate := d, endDate := end,
         isVehicleAvailableForDates := Availability(vehicle, oracle, d, end))
  }

  /** `handleEndDateChange(date)`: a cleared selection changes nothing; otherwise the
      return moves to `date` and availability is asked afresh for the new pair. */
  function EndDateChanged(f: Form, vehicle: Vehicle, oracle: Oracle, date: Option<Instant>): (r: Form)
    ensures date.None? ==> r == f
    ensures date.Some? ==> r.endDate == date.value && r.startDate == f.startDate
    ensures date.Some? ==>
      r.isVehicleAvailableForDates == Availability(vehicle, oracle, r.startDate, r.endDate)
    ensures r.(endDate := f.endDate, isVehicleAvailableForDates := f.isVehicleAvailableForDates) == f
  {
    match date
    case None => f
    case Some(d) =>
      f.(endDate := d, isVehicleAvailableForDates := Availability(vehicle, oracle, f.startDate, d))
  }

  /** The booking record built from the current state: the vehicle's id, its display
      name, both dates formatted, the upcoming status, the total price as amount, the
      first image if any, and the untrimmed guest fields exactly when nobody is signed in. */
  function BookingRecord(f: Form, vehicle: Vehicle, isAuthenticated: bool): (b: NewBooking)
    ensures b.vehicleId == vehicle.id
    ensures b.vehicleName == vehicle.brand + " " + vehicle.name
    ensures b.startDate == FormatIso(f.startDate) && b.endDate == FormatIso(f.endDate)
    ensures b.status == UpcomingStatus
    ensures b.amount == TotalPrice(vehicle.price, f.startDate, f.endDate)
    ensures b.imageUrl == if |vehicle.images| > 0 then Some(vehicle.images[0]) else None
    ensures b.guestName.Some? <==> !isAuthenticated
    ensures b.guestPhone.Some? <==> !isAuthenticated
    ensures !isAuthenticated ==> b.guestName.value == f.guestName && b.guestPhone.value == f.phoneNumber
  {
    NewBooking(
      vehicle.id,
      vehicle.brand + " " + vehicle.name,
      FormatIso(f.startDate),
      FormatIso(f.endDate),
      UpcomingStatus,
      TotalPrice(vehicle.price, f.startDate, f.endDate),
      if |vehicle.images| > 0 then Some(vehicle.images[0]) else None,
      if !isAuthenticated then Some(f.guestName) else None,
      if !isAuthenticated then Some(f.phoneNumber) else None)
  }

  /** The guards of `handleBooking`, in their order, and the record an accepted
      submission hands to the store. */
  function Evaluate(f: Form, vehicle: Vehicle, isAuthenticated: bool): (r: Result<NewBooking, Rejection>)
    ensures r == Err(VehicleUnavailable) <==> !f.isVehicleAvailableForDates
    ensures r == Err(MissingPhone) <==>
      f.isVehicleAvailableForDates && !isAuthenticated && IsBlank(f.phoneNumber)
    ensures r == Err(MissingName) <==>
      f.isVehicleAvailableForDates && !isAuthenticated && !IsBlank(f.phoneNumber) && IsBlank(f.guestName)
    ensures r.Ok? <==>
      f.isVehicleAvailableForDates && (isAuthenticated || (!IsBlank(f.phoneNumber) && !IsBlank(f.guestName)))
    ensures r.Ok? ==> r.value == BookingRecord(f, vehicle, isAuthenticated)
  {
    if !f.isVehicleAvailableForDates then Err(VehicleUnavailable)
    else if !isAuthenticated && IsBlank(f.phoneNumber) then Err(MissingPhone)
    else if !isAuthenticated && IsBlank(f.guestName) then Err(MissingName)
    else Ok(BookingRecord(f, vehicle, isAuthenticated))
  }
}
