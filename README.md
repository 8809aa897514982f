# Barbershop booking: wizard draft store, step rules and admin views

This project models the decision logic of a barbershop booking application written in
TypeScript and React, and proves properties of it in Dafny. Nothing in the model renders a page.

- **Public booking wizard.** A four-step wizard builds up a reservation draft: service, then
  barber, then date and time, then client details. The draft lives in a shared store
  (`Booking.BookingStore`). The store has a shallow-merge update, a reset, a raw step setter and
  a per-step gate `canProceed`.
- **Step handlers.** Each step copies catalogue entries or form input into the draft:
  - the service and barber catalogues, including the barber "first available" sentinel `"any"`;
  - the 20-slot half-hourly time grid, with availability as an injected input;
  - the selectable-date window;
  - the client form's email and phone validators, written as character-class predicates, and its
    inline error messages.
- **Step indicator.** The wizard's header classifies each step as completed, current or
  upcoming, and draws a progress line.
- **Admin dialog.** The "new appointment" dialog is a record of eight text fields. It is edited
  field by field and reset on submit. It has fixed option lists and a set of required fields.
- **Admin calendar.** It maps an appointment status to colours and pages by day, week or month.

Modelling choices:
- Dates picked in the wizard are integer day numbers (`Booking.Day`).
- Wall-clock times are `"HH:MM"` strings, read back through `Prelude.MinutesOf`.
- `Math.random` in the slot grid becomes two injected draws per slot position.
- The calendar's "now" is a parameter.
- Month paging goes through an injected `addMonths` function.

Every source file is modelled by one module:

| module | file |
|---|---|
| `Prelude` | shared text helpers: `padStart`, `"HH:MM"` labels |
| `Booking` | lib/booking-context.tsx |
| `ServiceSelection` | components/booking/Step1ServiceSelection.tsx |
| `BarberSelection` | components/booking/Step2BarberSelection.tsx |
| `DateTimeSelection` | components/booking/Step3DateTimeSelection.tsx |
| `ClientForm` | components/booking/Step4ClientForm.tsx |
| `StepIndicator` | components/booking/BookingStepIndicator.tsx |
| `AppointmentForm` | components/shared/AppointmentForm.tsx |
| `AppointmentsCalendar` | components/admin/AppointmentsCalendar.tsx |

### What the gates do not check

- **Client step gate.** `canProceed(3)` (lib/booking-context.tsx:52-57) checks only that name,
  email and phone are non-empty. It never calls the form's validators
  (components/booking/Step4ClientForm.tsx:16-37). `ClientForm.ClientGateIgnoresValidators`
  exhibits a draft the gate accepts while the form shows three errors.
- **Date window.** Only the day picker hides days outside today..today+60
  (components/booking/Step3DateTimeSelection.tsx:54-57). `handleSelectDate` (lines 40-46) takes
  any defined date (see `DateTimeSelection.DateTimeStep.HandleSelectDate`).
- **Two service lists.** The admin dialog's service select (components/shared/AppointmentForm.tsx:42-48)
  is its own list, not the wizard's catalogue. It offers "Coupe Enfant", which the wizard lacks,
  and lacks the wizard's "Coupe Premium" and "Service Complet". The calendar's fifth demo event
  (components/admin/AppointmentsCalendar.tsx:69-78) is a "Service Complet", so the dialog cannot
  enter a booking like it.

## Model

| member | source | states |
|---|---|---|
| Prelude.ClockTime | components/booking/Step3DateTimeSelection.tsx:23 | the label built from an hour and a minute with `padStart(2, '0')` is a well-formed "HH:MM" whose minutes read back as 60·hour + minute, each half being the two-digit form |
| Booking.Merge | lib/booking-context.tsx:35-37 | each key of the merged draft is the partial's value when the key is present, an explicit `undefined` included, and the previous value when it is absent |
| Booking.MergeOverwritesPresentKeys | lib/booking-context.tsx:35-37 | `updateBooking` overwrites exactly the keys present in the partial and leaves every other key unchanged |
| Booking.MergeIdempotent | lib/booking-context.tsx:35-37 | applying the same partial twice gives the same draft as applying it once |
| Booking.MergeLaterCovers | lib/booking-context.tsx:35-37 | a later partial that sets every key an earlier one set erases every trace of the earlier one |
| Booking.MergeNoChange | lib/booking-context.tsx:35-37 | the empty partial `{}` leaves the draft as it is |
| Booking.GateIsTruthinessOfStepKeys | lib/booking-context.tsx:44-61 | `canProceed(step)` holds iff step is 0..3 and every key it reads is truthy: `serviceId` for 0; `barberId` for 1 (so `'any'` passes); `date` and a non-empty `time` for 2; name, email and phone for 3 |
| Booking.CanProceed | lib/booking-context.tsx:44-61 | an open gate means the step is 0..3 and every key the step reads is set in the draft |
| Booking.GateReadsOnlyStepKeys | lib/booking-context.tsx:44-61 | two drafts that agree on a step's keys agree on that step's gate |
| Booking.UpdateKeepsOtherGates | lib/booking-context.tsx:35-61 | an update that sets none of a step's keys leaves that step's gate unchanged |
| Booking.ResetClosesEveryGate | lib/booking-context.tsx:39-42 | after a reset every draft field is unset and no step's gate is open |
| Booking.GateOutsideSteps | lib/booking-context.tsx:58-59 | `canProceed(s)` is false for every s outside 0..3 |
| Booking.BookingStore.constructor | lib/booking-context.tsx:32-33 | the store starts with the empty draft and step 0 |
| Booking.BookingStore.UpdateBooking | lib/booking-context.tsx:35-37 | the new draft is the merge of the old draft with the partial; the step is unchanged |
| Booking.BookingStore.ResetBooking | lib/booking-context.tsx:39-42 | the draft becomes empty and the step 0, and every gate is closed |
| Booking.BookingStore.SetCurrentStep | lib/booking-context.tsx:33 | stores any integer as the step, with no bounds or gate check, and leaves the draft unchanged |
| ServiceSelection.HandleSelectService | components/booking/Step1ServiceSelection.tsx:75-82 | the draft becomes the merge with the service's id, name, price and duration; the step is unchanged |
| ServiceSelection.CatalogueWellFormed | components/booking/Step1ServiceSelection.tsx:19-70 | six services with distinct, non-empty ids and positive prices and durations |
| ServiceSelection.SelectServiceEffect | components/booking/Step1ServiceSelection.tsx:75-82 | selecting writes the four service fields equal to the entry, leaves barber, date, time and client fields untouched, and makes the entry the selected card |
| ServiceSelection.ReselectLeavesNothingStale | components/booking/Step1ServiceSelection.tsx:76-81 | choosing a second service after a first gives the draft that choosing only the second gives: no stale price or duration remains |
| ServiceSelection.AtMostOneSelected | components/booking/Step1ServiceSelection.tsx:102 | at most one catalogue card is highlighted for any draft |
| ServiceSelection.IsSelected | components/booking/Step1ServiceSelection.tsx:102 | a highlighted card with a non-empty id means the service step's gate is open |
| ServiceSelection.SelectionOpensServiceGate | components/booking/Step1ServiceSelection.tsx:75-82 | after selecting any catalogue entry the service step's gate is open |
| BarberSelection.HandleSelectBarber | components/booking/Step2BarberSelection.tsx:66-71 | the draft becomes the merge with the barber's id and name; the step is unchanged |
| BarberSelection.CatalogueWellFormed | components/booking/Step2BarberSelection.tsx:20-61 | four barbers with distinct, non-empty ids; the last one is the `'any'` sentinel |
| BarberSelection.SelectBarberEffect | components/booking/Step2BarberSelection.tsx:66-71 | selecting writes `barberId` and `barberName` equal to the entry and changes no other key |
| BarberSelection.AtMostOneSelected | components/booking/Step2BarberSelection.tsx:91 | at most one barber card is highlighted for any draft |
| BarberSelection.IsSelected | components/booking/Step2BarberSelection.tsx:91 | a highlighted card with a non-empty id means the barber step's gate is open |
| BarberSelection.SelectionOpensBarberGate | components/booking/Step2BarberSelection.tsx:66-71 | after selecting any barber, the sentinel included, the barber step's gate is open |
| BarberSelection.CardDisplay | components/booking/Step2BarberSelection.tsx:129-152 | the sentinel shows no availability dot, experience or rating; every named barber shows all three |
| BarberSelection.ShowsAvailabilityDot | components/booking/Step2BarberSelection.tsx:129 | the green dot is shown only for an available barber and never for the `'any'` sentinel; on the catalogue of lines 20-61 it is shown exactly on the three named barbers |
| BarberSelection.ShowsExperience | components/booking/Step2BarberSelection.tsx:144 | the experience line is shown exactly when the experience text is non-empty; on the catalogue it is shown exactly on the three named barbers, since the sentinel's text is empty |
| BarberSelection.ShowsRating | components/booking/Step2BarberSelection.tsx:152 | the rating is shown only for a barber with at least one review; on the catalogue it is shown exactly on the three named barbers, since the sentinel has no reviews |
| DateTimeSelection.GenerateTimeSlots | components/booking/Step3DateTimeSelection.tsx:15-31 | the nested loops build exactly the closed-form grid: slot i is labelled 09:00 + 30·i minutes, with the i-th draws |
| DateTimeSelection.SlotAt | components/booking/Step3DateTimeSelection.tsx:21-26 | slot i is a zero-padded "HH:MM" on :00 or :30 at 540 + 30·i minutes, is available iff its draw says so, and is a last spot iff both draws say so |
| DateTimeSelection.SlotGridEnds | components/booking/Step3DateTimeSelection.tsx:17-22 | the grid has 20 slots, from "09:00" to "18:30" |
| DateTimeSelection.SlotGridShape | components/booking/Step3DateTimeSelection.tsx:15-31 | 20 slots, 09:00 to 18:30 every 30 minutes, each "HH:MM" on :00 or :30, and a last spot is always available |
| DateTimeSelection.SlotGridAscending | components/booking/Step3DateTimeSelection.tsx:21-23 | slot times strictly ascend, so no two slots share a time |
| DateTimeSelection.SlotGrid | components/booking/Step3DateTimeSelection.tsx:15-31 | 20 slots; slot i is available exactly when its availability draw says so, and a last spot is always available |
| DateTimeSelection.IsOffered | components/booking/Step3DateTimeSelection.tsx:54-57 | a day that no entry of the `disabledDays` list matches (not strictly before today, not strictly after today + 60) is exactly a day within today..today+60 |
| DateTimeSelection.OfferedDays | components/booking/Step3DateTimeSelection.tsx:54-57 | the picker offers exactly the 61 days today..today+60, each of them offered |
| DateTimeSelection.SelectDateEffect | components/booking/Step3DateTimeSelection.tsx:40-46 | choosing a date sets it, clears the time and changes nothing else; the date-and-time gate is then closed |
| DateTimeSelection.SelectTimeEffect | components/booking/Step3DateTimeSelection.tsx:48-51 | choosing a time sets only the time; the date-and-time gate opens iff a date is set and the time is non-empty |
| DateTimeSelection.DateTimeStep.constructor | components/booking/Step3DateTimeSelection.tsx:35-36 | the local selection starts from the draft's date and time |
| DateTimeSelection.DateTimeStep.TimeSlots | components/booking/Step3DateTimeSelection.tsx:38 | no selected date gives no slots; a selected date gives the grid |
| DateTimeSelection.DateTimeStep.HandleSelectDate | components/booking/Step3DateTimeSelection.tsx:40-46 | a defined date is taken without a window check: it is stored locally and in the draft, and the time is cleared in both; `undefined` changes nothing |
| DateTimeSelection.DateTimeStep.HandleSelectTime | components/booking/Step3DateTimeSelection.tsx:48-51 | the time is stored locally and in the draft; the date is unchanged |
| ClientForm.ValidateEmail | components/booking/Step4ClientForm.tsx:16-19 | an accepted email has at least five characters and contains both `@` and `.` |
| ClientForm.EmailValidatorMatchesPattern | components/booking/Step4ClientForm.tsx:16-19 | the email check holds iff the string has no whitespace, exactly one `@` with something before it, and a `.` in the domain that is neither its first nor its last character, i.e. the regular expression's language |
| ClientForm.StripWhitespace | components/booking/Step4ClientForm.tsx:23 | removing `\s` never lengthens the string and leaves no whitespace |
| ClientForm.StripAppend | components/booking/Step4ClientForm.tsx:23 | removing whitespace distributes over concatenation |
| ClientForm.StripKeepsClean | components/booking/Step4ClientForm.tsx:23 | a string without whitespace is left unchanged |
| ClientForm.ValidatePhone | components/booking/Step4ClientForm.tsx:21-24 | an accepted phone strips to 10 or 12 characters and has at least 10 characters as typed |
| ClientForm.PhoneIgnoresInsertedWhitespace | components/booking/Step4ClientForm.tsx:21-24 | inserting a whitespace character anywhere never changes the phone verdict |
| ClientForm.PhoneIgnoresWhitespace | components/booking/Step4ClientForm.tsx:21-24 | a phone's verdict is its stripped form's verdict, and an accepted phone strips to 10 or 12 characters |
| ClientForm.PhonePatternExamples | components/booking/Step4ClientForm.tsx:22 | "0" or "+33", a digit 1-9, then 8 digits is accepted; a 0 after the prefix is rejected |
| ClientForm.EmailExamples | components/booking/Step4ClientForm.tsx:17 | a short address passes; a dotless domain, a doubled `@` and an empty local part fail |
| ClientForm.FieldError | components/booking/Step4ClientForm.tsx:30-37 | the inline error is either empty or the field's message, and it is non-empty exactly when the value is non-empty and fails the field's check |
| ClientForm.FieldErrorMeaning | components/booking/Step4ClientForm.tsx:30-37 | an empty value never gives an error, notes never do, and a client field shows its message exactly when its non-empty value fails its check |
| ClientForm.ChangeStoresValue | components/booking/Step4ClientForm.tsx:27 | the edited field stores the raw value whether or not it is valid, and no other key changes |
| ClientForm.ClientGateIgnoresValidators | lib/booking-context.tsx:52-57 | a one-letter name, an address without `@` and a two-digit phone all show errors, yet open the client step's gate |
| ClientForm.ClientFormStep.constructor | components/booking/Step4ClientForm.tsx:14 | the errors map starts empty |
| ClientForm.ClientFormStep.HandleChange | components/booking/Step4ClientForm.tsx:26-40 | the draft takes the value; only the edited field's entry of the errors map changes, to its message or `''` |
| StepIndicator.Render | components/booking/BookingStepIndicator.tsx:30-72 | one view per step; no step is both completed and current; a check mark exactly on completed steps; the title highlighted exactly on the current step |
| StepIndicator.RenderStates | components/booking/BookingStepIndicator.tsx:31-58 | steps before the current one are completed, the current one is current, later ones upcoming; none is both; a check mark is shown iff completed, else the step number; only the current title is highlighted |
| StepIndicator.CountRange | components/booking/BookingStepIndicator.tsx:30-32 | when exactly indices lo..hi-1 are in a state, the count of that state is hi - lo |
| StepIndicator.StateCounts | components/booking/BookingStepIndicator.tsx:31-32 | for 0 <= currentStep < n exactly one step is current, currentStep are completed and the rest upcoming |
| StepIndicator.ProgressWidth | components/booking/BookingStepIndicator.tsx:26 | the width is non-finite exactly for a single step; with two or more steps and the current step in range it lies between 0% and 100% |
| StepIndicator.ProgressEnds | components/booking/BookingStepIndicator.tsx:26 | with n >= 2 the progress line is 0% on the first step and 100% on the last |
| StepIndicator.ProgressIncreases | components/booking/BookingStepIndicator.tsx:26 | the progress width strictly increases with the current step |
| StepIndicator.WizardProgress | components/booking/BookingStepIndicator.tsx:26 | on the four-step wizard the line is drawn to 0, 100/3, 200/3 and 100 percent |
| StepIndicator.SingleStepProgress | components/booking/BookingStepIndicator.tsx:26 | with a single step the width is a division by zero, not a finite percentage |
| AppointmentForm.With | components/shared/AppointmentForm.tsx:117-119 | `{ ...formData, [field]: value }` gives the field the value and leaves every other field unchanged (the same shape for all eight inputs) |
| AppointmentForm.WithLaws | components/shared/AppointmentForm.tsx:117-119 | a second edit of a field overrides the first, re-entering a field's value changes nothing, and edits of different fields commute |
| AppointmentForm.RequiredFieldsExact | components/shared/AppointmentForm.tsx:110-275 | the required fields are exactly client name, phone, date, time, service and barber; email and notes are not |
| AppointmentForm.RequiredFilledMeaning | components/shared/AppointmentForm.tsx:110-275 | the reset form does not have its required fields filled, and a blank email or notes never unfills them |
| AppointmentForm.SelectOptionsDistinct | components/shared/AppointmentForm.tsx:42-50 | five service and three barber options, each non-empty and distinct from the others in its select, as their use as React keys (lines 230, 254) requires |
| AppointmentForm.TimeSlotAt | components/shared/AppointmentForm.tsx:52-67 | option i is "HH:MM" on :00 or :30, at 09:00 + 30·i in the morning run and 14:00 + 30·(i-6) in the afternoon run |
| AppointmentForm.TimeSlotsShape | components/shared/AppointmentForm.tsx:52-67 | 14 options, strictly ascending and pairwise distinct, none from 12:00 to 13:30 |
| AppointmentForm.AppointmentDialog.constructor | components/shared/AppointmentForm.tsx:31-40 | every field starts as `""` |
| AppointmentForm.AppointmentDialog.Change | components/shared/AppointmentForm.tsx:117-273 | one input's handler replaces only that field; the dialog stays as it was |
| AppointmentForm.AppointmentDialog.HandleSubmit | components/shared/AppointmentForm.tsx:69-85 | submit closes the dialog and resets every field to `""` |
| AppointmentForm.AppointmentDialog.Cancel | components/shared/AppointmentForm.tsx:281-288 | cancel closes the dialog and keeps the field values |
| AppointmentsCalendar.StyleFor | components/admin/AppointmentsCalendar.tsx:105-116 | whatever the status, the style has white text, 6px radius, no border, 4px 8px padding, 13px font of weight 500, and a left border "4px solid …" |
| AppointmentsCalendar.StatusColours | components/admin/AppointmentsCalendar.tsx:87-103 | CONFIRMED and a missing status give #8B4513/#6B3410; IN_PROGRESS gives #0A1628/#050B14; COMPLETED #10B981/#059669; CANCELED #EF4444/#DC2626 |
| AppointmentsCalendar.BackgroundsDistinguishStatuses | components/admin/AppointmentsCalendar.tsx:87-103 | the four statuses have four distinct background colours |
| AppointmentsCalendar.Shifted | components/admin/AppointmentsCalendar.tsx:233-257 | one press moves 1 day in day view, 7 days in week view and one month in month view, keeping the time of day |
| AppointmentsCalendar.PagingRoundTrip | components/admin/AppointmentsCalendar.tsx:233-257 | in day and week views, next then previous and previous then next return the original date |
| AppointmentsCalendar.WeekPresses | components/admin/AppointmentsCalendar.tsx:253-257 | k presses of next in week view move exactly 7·k days |
| AppointmentsCalendar.CalendarToolbar.constructor | components/admin/AppointmentsCalendar.tsx:82-83 | the calendar opens in week view on the current moment |
| AppointmentsCalendar.CalendarToolbar.SetView | components/admin/AppointmentsCalendar.tsx:203-226 | the view buttons change the view and not the date |
| AppointmentsCalendar.CalendarToolbar.Prev | components/admin/AppointmentsCalendar.tsx:233-237 | the date moves back one period of the current view; the view is unchanged |
| AppointmentsCalendar.CalendarToolbar.Today | components/admin/AppointmentsCalendar.tsx:245 | the date becomes the current moment, whatever the view |
| AppointmentsCalendar.CalendarToolbar.Next | components/admin/AppointmentsCalendar.tsx:253-257 | the date moves forward one period of the current view; the view is unchanged |
| AppointmentsCalendar.DemoEventsWellFormed | components/admin/AppointmentsCalendar.tsx:28-79 | five events with distinct ids, each starting before it ends on the same calendar day and lasting exactly the wizard catalogue's duration for its service |

## Left out

- DateTimeSelection.GenerateTimeSlots: `Math.random() > 0.3` and `Math.random() > 0.8` become injected draws per slot position. The 70 % and 20 % probabilities are not modelled.
- DateTimeSelection.OfferedDays: days are integer day numbers, so "today" is a parameter. The day picker's own comparison of `new Date()` against midnight is not modelled.
- AppointmentsCalendar.Shifted: month paging is `Date.setMonth`, whose day-of-month overflow (31 January plus one month) belongs to the JavaScript date library. It is an injected `addMonths`. No round trip is claimed for month view.
- AppointmentsCalendar.CalendarToolbar: the date is a day number plus minutes since midnight. Daylight-saving shifts of `setDate` are not modelled. The library's own `onNavigate`/`onView` callbacks are not modelled. The active-button styling is not modelled.
- ClientForm.FieldError: `value.length < 2` counts UTF-16 code units, while the model counts Unicode characters. The two differ only for characters outside the Basic Multilingual Plane.
- ClientForm.EmailExamples and ClientForm.PhonePatternExamples: the examples are short strings. Long literals with embedded spaces are covered by `PhoneIgnoresWhitespace` rather than stated one by one.
- StepIndicator.ProgressWidth: the width is computed on exact rationals rather than IEEE doubles. `NaN` and `Infinity` (a single step) are one `NonFinite` case. The percentage text and the animation are not modelled.
- The wizard page that calls the store (app/(public)/booking/new/page.tsx) is not part of this model: its next and back buttons, the simulated submit and "new booking". The store operations they call are modelled, and so are the gates that guard them. The one thing taken from the page is its list of four steps (lines 18-23), the constant `StepIndicator.WizardSteps` that `StepIndicator.WizardProgress` uses.
- AppointmentForm.AppointmentDialog: the browser's enforcement of `required` is outside the code. Only the required-field set and `RequiredFilled` are modelled, and submit resets the form unconditionally. The `console.log` of the submitted record (line 71) is not modelled.
- AppointmentForm.AppointmentDialog: the `open` flag is owned by the parent through `onOpenChange`. The dialog's own open/close events from the widget are not modelled.
- React plumbing is not modelled:
  - `useBooking` throwing outside its provider (lib/booking-context.tsx:79-85);
  - context and `useState` wiring;
  - animations, class names, icons;
  - date formatting with `date-fns`/`moment`.
- The rest of the repository is not part of this model: animation variants, styling, charts, counters, testimonials, translations, gallery, sidebar and the admin pages.
