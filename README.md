# Booking form of the vehicle rental site, in Dafny

This project models the controller of the site's booking form
(`src/components/BookingForm.tsx`): its state hooks, the two values derived from the
dates on each render (the rental length and the total price), the two date handlers that
move the pick-up and return dates and re-ask the availability oracle, the effect that
copies the user's profile phone, and `handleBooking`, which checks availability, the
guest phone and the guest name in that order and hands a booking record to the store.

Dates are JavaScript instants, modelled as integer milliseconds on the local wall clock;
the calendar day of an instant is its quotient by 86 400 000. The calendar widgets hand
back local midnights. A `yyyy-MM-dd` string is modelled by the calendar day it names
(`Calendar.IsoDate`). Prices are `real`s, so the total is the exact product.

The availability oracle (`isVehicleAvailable`) and the store (`addBooking`) belong to a
shared authentication context that is not part of this model. They are parameters: the
oracle is a function of the vehicle id and the two date strings, and the store is a
function from the record to an optional stored booking. `None` stands for both a missing
result and a thrown error. Whether the user is signed in is a parameter of
`HandleBooking`, and the current `user` is a parameter of the mount effect.

The calendar widgets' `disabled` rules are modelled as preconditions of the class's date
handlers. The pick-up date must be at least seven days after the render's `today`. The
return date must be one to seven days after the pick-up. The widgets are the handlers'
only callers, and `handleBooking` never checks these rules again.

Modules:
- `Wrappers`: `Option` and `Result`.
- `Text`: `trim` and the blank-field test.
- `Calendar`: instants, calendar days, `addDays`, `format` and `differenceInDays`.
- `Pricing`: `rentalDays` and `totalPrice`.
- `Booking`: the form state as a value, its transitions, and the verdict of `handleBooking`.
- `Component`: the component as a class whose methods update its fields setter by setter.
- `FormProperties`: what the handlers keep and what they break.
- `Findings`: what goes wrong with the initial state as written, and the corrected initial state.

Three behaviours of the code are worth stating:
- The seven-day advance floor is only a widget rule. Submission does not reject an early start.
- A negative date difference passes through `|| 1` unchanged. The rental length is not `max(1, …)`.
- One refusal message covers both an unavailable vehicle and a too-early start (lines 87 and 173), but the availability flag is only the oracle's answer.

The component mounts as the code writes it. The initial pick-up is the load instant plus
seven days, and the return is a day later, so both keep the time of day of the load. The
class invariant is only that the return is after the pick-up. The facts that hold for
midnight dates are proved as lemmas about states whose dates are midnights. They cover the
corrected initial state of "## Findings".

## Model

| member | source | states |
|---|---|---|
| `Text.TrimStart` | src/components/BookingForm.tsx:93 | the result is a suffix of the input; every dropped character is white space and the first kept one is not |
| `Text.TrimEnd` | src/components/BookingForm.tsx:93 | the result is a prefix of the input; every dropped character is white space and the last kept one is not |
| `Text.Trim` | src/components/BookingForm.tsx:101 | the trimmed text is one slice of the input with only white space cut off before and after it; it neither starts nor ends with white space; text that already does not is returned unchanged |
| `Text.TrimStartThenEnd` | src/components/BookingForm.tsx:93 | trimming the start and then the end leaves the slice after the leading white space, with only white space cut off behind it |
| `Text.IsBlank` | src/components/BookingForm.tsx:93 | a missing field is one made only of white space; the empty string is one |
| `Text.BlankIffTrimEmpty` | src/components/BookingForm.tsx:101 | a field counts as missing exactly when `trim()` leaves the empty string, which is the test `!x \|\| x.trim() === ""` |
| `Calendar.AddDays` | src/components/BookingForm.tsx:67 | `addDays` moves to the calendar day `n` later and keeps the time of day |
| `Calendar.FormatIso` | src/components/BookingForm.tsx:50-51 | `format(t, 'yyyy-MM-dd')` names the calendar day whose span contains the instant |
| `Calendar.FormatIsoSameDay` | src/components/BookingForm.tsx:116-117 | two instants format to the same `yyyy-MM-dd` exactly when they share a calendar day, so two different midnights never format alike |
| `Calendar.DifferenceInDays` | src/components/BookingForm.tsx:58 | the difference is the count of whole days elapsed, with the sign of the difference and any partial day dropped |
| `Calendar.MidnightDifference` | src/components/BookingForm.tsx:58 | between two midnights the whole-day difference equals the difference of calendar days |
| `Pricing.RentalDays` | src/components/BookingForm.tsx:58 | never 0; 1 when the dates are less than a day apart either way; the whole days elapsed when the end is a day or more after the start; a negative count when the end is a day or more before |
| `Pricing.RentalDaysOfCalendarDates` | src/components/BookingForm.tsx:58 | for two ordered midnights the rental length is the number of calendar days between them, at least 1 |
| `Pricing.TotalPrice` | src/components/BookingForm.tsx:59 | dates less than a day apart either way cost exactly one day's price; an end not before the start costs at least one day's price |
| `Pricing.TotalPriceOfWeekRental` | src/components/BookingForm.tsx:59 | for a return picked one to seven days after a midnight pick-up, the total is the daily price times the calendar days, between one and seven days' price |
| `Booking.StartSelectable` | src/components/BookingForm.tsx:197 | the pick-up calendar offers exactly the midnights at least seven calendar days after `today`, or eight when `today` is not a midnight |
| `Booking.EndSelectable` | src/components/BookingForm.tsx:223-225 | the return calendar offers exactly the midnights one to seven calendar days after the pick-up's day, or two to seven when the pick-up is not a midnight; all of them are after the pick-up instant |
| `Booking.InitialForm` | src/components/BookingForm.tsx:29-36 | the mounted state has the pick-up seven days and the return eight days after the load, both at the load's time of day, the return after the pick-up and within a week; it is not processing, has empty guest fields and assumes availability |
| `Booking.Availability` | src/components/BookingForm.tsx:49-55 | the availability answer is the oracle's for the vehicle id and the calendar days of the two instants |
| `Booking.UserEffect` | src/components/BookingForm.tsx:38-46 | a present, non-empty profile phone replaces the phone field; the availability flag becomes the oracle's answer for the current dates; nothing else changes |
| `Booking.StartDateChanged` | src/components/BookingForm.tsx:62-74 | a cleared selection changes nothing; otherwise the pick-up is the new date and the return is strictly after it; the return stays put if it was strictly later and becomes the next day otherwise; the flag is the oracle's answer for the new pair; nothing else changes |
| `Booking.EndDateChanged` | src/components/BookingForm.tsx:76-81 | a cleared selection changes nothing; otherwise the return is the new date and the pick-up is unchanged; the flag is the oracle's answer for the new pair; nothing else changes |
| `Booking.BookingRecord` | src/components/BookingForm.tsx:113-124 | the record has the vehicle id, `brand name`, both dates formatted, status `à venir`, the total price as amount and the first image if any; it carries the guest name and phone, untrimmed, exactly when the user is not signed in |
| `Booking.Evaluate` | src/components/BookingForm.tsx:84-106 | refuses as unavailable exactly when the flag is down, whatever else holds; for a guest, a blank phone is refused before a blank name; signed-in users are never refused for phone or name; an accepted submission yields the booking record of the current state |
| `Component.BookingForm.constructor` | src/components/BookingForm.tsx:26-46 | the component mounts in the initial state as written, with the user effect applied; the return is after the pick-up |
| `Component.BookingForm.ApplyUser` | src/components/BookingForm.tsx:38-46 | the fields end as the user effect says |
| `Component.BookingForm.CheckVehicleAvailability` | src/components/BookingForm.tsx:49-55 | the flag is the oracle's answer for this vehicle and the two dates as `yyyy-MM-dd`; no other field changes |
| `Component.BookingForm.HandleStartDateChange` | src/components/BookingForm.tsx:62-74 | for a date the pick-up calendar allows, in any state with the return after the pick-up, the fields end as `StartDateChanged` says and the return stays after the pick-up |
| `Component.BookingForm.HandleEndDateChange` | src/components/BookingForm.tsx:76-81 | for a date the return calendar allows, in any state with the return after the pick-up, the fields end as `EndDateChanged` says; the return stays after the pick-up and the rental is at most a week |
| `Component.BookingForm.SetPhoneNumber` | src/components/BookingForm.tsx:242 | only the phone field changes, to the typed value |
| `Component.BookingForm.SetGuestName` | src/components/BookingForm.tsx:260 | only the guest name changes, to the typed value |
| `Component.BookingForm.HandleBooking` | src/components/BookingForm.tsx:84-162 | a refusal returns `Rejected` with its reason, which carries no store result, and changes no field; an accepted record is what is passed to `addBooking`, and the outcome carries it; `isProcessing` ends raised when the store keeps the record and lowered when it does not; no other field changes |
| `Component.BookingForm.CanSubmit` | src/components/BookingForm.tsx:321-325 | the button is enabled exactly when no submission is in flight and a signed-in user's submission would be accepted; while `isProcessing` is raised it is disabled; when enabled the availability guard passes, and when disabled a submission is in flight or the dates are unavailable |
| `FormProperties.StartChangeKeepsOrder` | src/components/BookingForm.tsx:62-74 | a pick-up chosen in its calendar keeps midnight dates ordered midnights |
| `FormProperties.EndChangeKeepsOrder` | src/components/BookingForm.tsx:219-226 | in any state, a return chosen in its calendar is after the pick-up and at most a week later |
| `FormProperties.EndChangeKeepsOrderAndWeek` | src/components/BookingForm.tsx:76-81 | a return chosen in its calendar keeps midnight dates ordered midnights and the rental within a week |
| `FormProperties.StartChangeWeekBound` | src/components/BookingForm.tsx:62-74 | after a pick-up change the rental is within a week exactly when the old return is at most a week after the new pick-up |
| `FormProperties.StartChangeLaterKeepsWeek` | src/components/BookingForm.tsx:66-71 | moving the pick-up later keeps a rental of at most a week within a week |
| `FormProperties.StartChangeCanBreakWeek` | src/components/BookingForm.tsx:62-81 | from the state mounted at midnight on day 0, three picks the calendars offer (pick-up day 10, return day 17, pick-up day 9) turn a seven-day rental into an eight-day one, priced as eight days |
| `FormProperties.ReplayKeepsOrder` | src/components/BookingForm.tsx:62-81 | from any state with the return after the pick-up, the mounted one included, any sequence of calendar picks keeps the return after the pick-up |
| `FormProperties.ReplayKeepsCalendarDates` | src/components/BookingForm.tsx:64-79 | from ordered midnights, after any sequence of calendar picks, the dates are still ordered midnights, they format to different days with the return after the pick-up, and the rental length is the calendar days between them |
| `Findings.SameDayBookingAsWritten` | src/components/BookingForm.tsx:29-32 | from the initial state as written, loaded at any time but midnight, picking the first offered pick-up day makes both dates format to the same day, and one day is charged |
| `Findings.ShortChargeAsWritten` | src/components/BookingForm.tsx:57-59 | from the initial state as written, loaded at any time but midnight, choosing a return `k` calendar days after the pick-up (2 to 7) charges `k - 1` days |
| `Findings.InitialFormAtMidnight` | src/components/BookingForm.tsx:30-32 | the corrected initial state keeps the written days but puts both dates at midnight: ordered midnights within a week |
| `Findings.AcceptedRecordSpansDays` | src/components/BookingForm.tsx:116-119 | for ordered midnight dates, an accepted record's return day is after its pick-up day and its amount is the daily price times the days between them |
| `Findings.ReachableBookingsSpanCalendarDays` | src/components/BookingForm.tsx:113-124 | from the corrected initial state, after any sequence of picks, an accepted record's return day is after its pick-up day and its amount is the daily price times the days between them |

## Left out

- Rendering, toasts, the `navigate` redirects and the 1500 ms delay before the success message are UI, routing and timers.
- Component.BookingForm.HandleBooking: `isProcessing` is raised before the store call. Because the store is a function, the model shows only the final value. After a successful store call it stays raised, since the delayed reset that follows is left out.
- Component.BookingForm.SetPhoneNumber: the phone input is disabled when a signed-in user has a profile phone (line 245). The setter does not require otherwise, since the input is then simply not offered.
- `isVehicleAvailable` and `addBooking` are not part of this model. They live in the authentication context and appear as parameters. The same goes for how `isAuthenticated` relates to `user`.
- Time zones and daylight-saving changes: a day is always 86 400 000 ms of local time. The French locale and the display formats (`d MMMM yyyy`, `toFixed(2)`) are left out too.
- JavaScript floating-point arithmetic: prices are exact `real`s.
- React's asynchronous batching of state updates: each handler is one atomic update. The handlers pass their new dates to the oracle explicitly, so nothing is read stale.
- `src/components/Footer.tsx` and `src/pages/Index.tsx` are presentational and are not part of this model.

## Findings

| source | as written | input that shows it | evidently intended | confidence | as-written member | corrected member |
|---|---|---|---|---|---|---|
| src/components/BookingForm.tsx:29-32 | the initial dates are `now + 7 days` and a day later, keeping the time of day of the load; the pick-up calendar returns midnights, and `handleStartDateChange` keeps the old return when it is later in time | page loaded at 14:00 on day 0, pick-up day 8 chosen (the first the calendar offers); the return stays at day 8 14:00, so both dates format to day 8, and one day is charged | the return is on a later calendar day than the pick-up, as the comment at line 65 says | not executed | `Findings.SameDayBookingAsWritten` | `Findings.InitialFormAtMidnight` |
| src/components/BookingForm.tsx:57-59 | with the initial pick-up kept, the whole-day difference to a return midnight drops the partial first day | page loaded at 14:00 on day 0, return day 9 chosen; the pick-up is day 7 14:00, so `differenceInDays` gives 1 for a day-7-to-day-9 rental | the charge covers the calendar days sent to the oracle and stored, so day 7 to day 9 is 2 days | not executed | `Findings.ShortChargeAsWritten` | `Findings.InitialFormAtMidnight` |

The corrected initial state is normalised to midnight. With it, `Findings.ReachableBookingsSpanCalendarDays` proves the intended properties for every sequence of picks. The component class mounts with the state as written (`Booking.InitialForm`), so its contracts describe the program as it stands.
