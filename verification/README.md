# Doctor appointment frontend: verified model of its decision logic

This project models the browser side of a doctor-appointment booking
application: a React single-page application in which patients find doctors and
book time slots, doctors manage their schedule and their appointments, and
administrators verify doctors, manage appointments, payments and other
administrators. Every network call goes to a backend that is not part of this
model. What the frontend itself decides is what is modelled here:

- form validation, both the generic rule engine of the `useForm` hook and the
  hand-written validators;
- the 24-hour to 12-hour time display and the `"HH:mm"` ordering check;
- the calendar grid, past-date rule, month stepping and `YYYY-MM-DD` text of the
  date picker;
- the two-step booking wizard and how it composes the appointment's start;
- the appointment status actions each screen offers, and the status badge;
- the order-preserving, case-insensitive list searches and category filters;
- the route table, its redirects and the three route guards;
- the FAQ expand/collapse map.

Each core source file is one Dafny module with the same name. Pure logic is
written as functions with lemmas about them; component state that handlers
update is a `class` whose fields are the component's `useState` variables and
whose methods are the handlers, each stating its whole new state. The loops in
the source (`validate`'s `forEach`, the date grid's two `for` loops) are
methods with loop invariants, proved against a specification function.
Service calls, `window.confirm` and the current date are parameters: a
service call is a boolean or an `Option` standing for "the awaited promise
resolved (with this value)".

Shared modules:

- `Base`: `Option`, `opt || ""` and `Array.prototype.filter`.
- `Text`: the JavaScript string operations the screens use (`trim`,
  `toLowerCase`, `includes`, `split`, `String(n)`, `padStart`), on ASCII letters
  and the ECMAScript white-space set.
- `Patterns`: the email and phone regular expressions as string predicates.
- `ClockTime`: `"HH:mm"` times and `formatTime`.
- `Calendar`: proleptic Gregorian dates as (year, month index, day) triples,
  with day counts, weekday and `YYYY-MM-DD` text.
- `AppointmentStatus`: the status actions shared by the four appointment
  screens.
- `AdminFetchCycle`: the administrator list fetch of the management page
  against the route tree's provider loading gate.

## Model

| member | source | states |
|---|---|---|
| UseForm.ValueOf | frontend/src/hooks/useForm.jsx:27 | a field absent from the values reads as `""`; a present one reads as its value |
| UseForm.FieldError | frontend/src/hooks/useForm.jsx:30-39 | rules are tried in the order required, minLength, pattern and the first that fails gives the field's only message: `"<field> is required"` for a blank value, the minLength message when the untrimmed length is short, else the rule's own message or `"Invalid <field>"`; no message exactly when no rule is violated |
| UseForm.ValidationErrorsKeys | frontend/src/hooks/useForm.jsx:23-41 | the error map built by `validate` holds exactly the fields of the table that have a failing rule |
| UseForm.ValidationErrorsEmpty | frontend/src/hooks/useForm.jsx:23-43 | the built map is empty exactly when every rule of the table passes |
| UseForm.ValidationErrorsAppend | frontend/src/hooks/useForm.jsx:26-40 | a table extended with more rules yields no errors exactly when the original table yields none and every added rule passes |
| UseForm.ValidationErrorLast | frontend/src/hooks/useForm.jsx:26-40 | the last rule of a table, when it fails, leaves its own message under its field whatever came before |
| UseForm.ValidationErrorAt | frontend/src/hooks/useForm.jsx:26-40 | in a table with distinct fields, any failing rule leaves its own message under its field |
| UseForm.AllOfAppend | frontend/src/hooks/useForm.jsx:26-40 | the rules of a concatenated table all pass exactly when those of both parts do |
| UseForm.FormHook.constructor | frontend/src/hooks/useForm.jsx:3-5 | the hook starts from the initial values with an empty error map |
| UseForm.FormHook.HandleChange | frontend/src/hooks/useForm.jsx:7-20 | sets only the named value; blanks that field's error only when it held a non-empty one; every other value and error is unchanged |
| UseForm.FormHook.Validate | frontend/src/hooks/useForm.jsx:22-44 | the loop replaces the error map wholesale with the table's errors and returns true exactly when the map is empty, that is when no rule fails |
| UseForm.FormHook.ResetForm | frontend/src/hooks/useForm.jsx:46-49 | restores the initial values and empties the error map |
| Register.Lookup | frontend/src/pages/Register.jsx:48 | reading a form value: present exactly when the key is in the map, with its value |
| Register.RegisterPayload | frontend/src/pages/Register.jsx:58-60 | the data given to `register` is every form value except `confirmPassword` |
| Register.RegisterRulesAccept | frontend/src/pages/Register.jsx:27-44 | the table accepts exactly: a non-blank name of length at least 2, a non-blank email matching the pattern, a non-blank password of length at least 6 and a non-blank confirmation |
| Register.RegisterEmailMessage | frontend/src/pages/Register.jsx:32-36 | a non-blank email rejected by the pattern is reported with the table's own message |
| Register.RegisterFieldsDistinct | frontend/src/pages/Register.jsx:27-44 | the table names each field once |
| Register.RegisterRedirect | frontend/src/pages/Register.jsx:21-25 | an authenticated patient is sent to `/dashboard`, and only then |
| Register.RegisterPage.constructor | frontend/src/pages/Register.jsx:10-19 | the page starts with four empty fields, no hook errors and no page errors |
| Register.RegisterPage.HandleSubmit | frontend/src/pages/Register.jsx:46-66 | a password mismatch writes only the page's confirmPassword error and stops; otherwise failed validation leaves its errors in the hook, stops and keeps the page's errors; otherwise the page errors are cleared, `register` receives the values minus confirmPassword, and success resets the form and goes to `/dashboard` |
| Patterns.IndexOf | frontend/src/pages/Register.jsx:34 | the first position of a character, absent exactly when the character does not occur |
| Patterns.EmailMatchesRegex | frontend/src/pages/Register.jsx:34 | the string test used for the email rule holds exactly when the string is local part, `@`, domain, `.`, suffix, each non-empty and free of white space and `@` |
| DoctorRegister.DoctorRulesAccept | frontend/src/pages/doctor/DoctorRegister.jsx:31-59 | the doctor table accepts exactly the patient table's conditions plus a non-blank specialization and licence number and a phone of exactly ten ASCII digits |
| DoctorRegister.ExtraRulesPass | frontend/src/pages/doctor/DoctorRegister.jsx:48-58 | the three rules the doctor table adds pass exactly when specialization and licence number are non-blank and the phone is ten ASCII digits |
| DoctorRegister.DoctorPhoneMessage | frontend/src/pages/doctor/DoctorRegister.jsx:54-58 | a non-blank phone that is not ten digits is reported with the table's own message |
| DoctorRegister.DoctorRegisterRedirect | frontend/src/pages/doctor/DoctorRegister.jsx:21-29 | an authenticated doctor is sent to the dashboard when verified and to `/doctor/pending` otherwise; an unauthenticated one stays |
| DoctorRegister.DoctorRegisterPage.constructor | frontend/src/pages/doctor/DoctorRegister.jsx:10-19 | the page starts with seven empty fields and no errors |
| DoctorRegister.DoctorRegisterPage.HandleSubmit | frontend/src/pages/doctor/DoctorRegister.jsx:61-80 | the same guard sequence as the patient page; on success the form is reset and the page goes to `/doctor/pending` whatever the verification flag |
| AdminProfile.FormFor | frontend/src/pages/admin/AdminProfile.jsx:18-28 | the form loaded from an administrator record: its name or `""`, and both passwords empty |
| AdminProfile.Set | frontend/src/pages/admin/AdminProfile.jsx:30-35 | writing one field of the form leaves the other two unchanged |
| AdminProfile.ProfileErrors | frontend/src/pages/admin/AdminProfile.jsx:45-62 | a blank name gives "Name is required"; a non-empty password shorter than 6 gives the length error; a non-empty password that differs from its confirmation gives the mismatch error; nothing else is reported |
| AdminProfile.ProfileAccepted | frontend/src/pages/admin/AdminProfile.jsx:45-62 | the form is accepted exactly when the name is not blank and the password is either empty or at least 6 long and equal to its confirmation |
| AdminProfile.EmptyPasswordNoPasswordErrors | frontend/src/pages/admin/AdminProfile.jsx:52-58 | an empty password produces neither password error, whatever the confirmation holds |
| AdminProfile.ShortMismatchBothReported | frontend/src/pages/admin/AdminProfile.jsx:52-58 | any non-empty password shorter than 6 that differs from its confirmation gets both the length error and the mismatch error at once, so the form is refused |
| AdminProfile.UpdatePayload | frontend/src/pages/admin/AdminProfile.jsx:86-93 | the sent form data holds name, password and confirmation, then the image only when one was chosen |
| AdminProfile.AdminProfilePage.constructor | frontend/src/pages/admin/AdminProfile.jsx:8-15 | not editing, empty form, no errors, no image |
| AdminProfile.AdminProfilePage.Load | frontend/src/pages/admin/AdminProfile.jsx:18-28 | an arriving record reloads the form; no record changes nothing |
| AdminProfile.AdminProfilePage.StartEditing | frontend/src/pages/admin/AdminProfile.jsx:128 | the Edit button enters editing mode and changes nothing else |
| AdminProfile.AdminProfilePage.HandleChange | frontend/src/pages/admin/AdminProfile.jsx:30-43 | updates only the named field and blanks that field's error only when it held one |
| AdminProfile.AdminProfilePage.HandleImageChange | frontend/src/pages/admin/AdminProfile.jsx:64-75 | a chosen file replaces the image; no file changes nothing |
| AdminProfile.AdminProfilePage.Validate | frontend/src/pages/admin/AdminProfile.jsx:45-62 | replaces the error map with the form's errors and returns true exactly when there are none |
| AdminProfile.AdminProfilePage.HandleSubmit | frontend/src/pages/admin/AdminProfile.jsx:77-101 | the error map becomes the form's errors; a form with errors sends nothing and keeps the mode; otherwise the payload is sent and editing ends whatever `updateProfile` resolves with |
| AdminProfile.EditingAfterSubmit | frontend/src/pages/admin/AdminProfile.jsx:80-97 | after a submit the page is still editing exactly when it was and the form had errors; the update's result plays no part |
| AdminProfile.FailedUpdateLeavesEditing | frontend/src/pages/admin/AdminProfile.jsx:95-97 | for every accepted form a failed update (`false`) leaves editing mode, exactly as a successful one does |
| AdminProfile.AdminProfilePage.HandleCancel | frontend/src/pages/admin/AdminProfile.jsx:109-117 | leaves editing, reloads the name (or `""`), empties both passwords and the error map |
| ManageAdmins.CreateRejection | frontend/src/pages/admin/ManageAdmins.jsx:44-52 | creation is refused exactly when a field is the empty string (all-fields message, checked first) or the password is shorter than 6 |
| ManageAdmins.BlankFieldsAccepted | frontend/src/pages/admin/ManageAdmins.jsx:44-47 | the emptiness check does not trim: every form whose name and email are non-empty white space and whose password has at least 6 characters is accepted |
| ManageAdmins.SetField | frontend/src/pages/admin/ManageAdmins.jsx:33-39 | a change updates only the named field |
| ManageAdmins.View | frontend/src/pages/admin/ManageAdmins.jsx:83-98 | a non-super-admin sees Access Denied whether or not the list is loading; a super admin sees the spinner while loading, then the table |
| ManageAdmins.RoleBadge | frontend/src/pages/admin/ManageAdmins.jsx:207-215 | `"superadmin"` shows "Super Admin", any other role "Admin" |
| ManageAdmins.DeleteOnlyPlainAdmins | frontend/src/pages/admin/ManageAdmins.jsx:207-222 | Delete is offered exactly for administrators that are not super admins, the ones badged "Admin" |
| ManageAdmins.ToggleLabel | frontend/src/pages/admin/ManageAdmins.jsx:108 | the header button reads "Cancel" while the create form is open, else "Create New Admin" |
| ManageAdmins.ManageAdminsPage.constructor | frontend/src/pages/admin/ManageAdmins.jsx:8-15 | no admins, loading, create form closed, empty fields |
| ManageAdmins.ManageAdminsPage.FinishFetch | frontend/src/pages/admin/ManageAdmins.jsx:21-31 | loading ends and the list `getAdmins` resolves with replaces the table; a failed request resolves with `[]` and so empties it |
| ManageAdmins.ManageAdminsPage.HandleChange | frontend/src/pages/admin/ManageAdmins.jsx:33-39 | the form becomes the old one with the named field set |
| ManageAdmins.ManageAdminsPage.ToggleCreateForm | frontend/src/pages/admin/ManageAdmins.jsx:105-106 | flips the create form and changes nothing else |
| ManageAdmins.ManageAdminsPage.HandleSubmit | frontend/src/pages/admin/ManageAdmins.jsx:41-68 | a refused form sends nothing and keeps its state; otherwise the form is sent and only a truthy result empties the form, closes it and refetches, which leaves the page loading; the table is kept |
| ManageAdmins.HandleDelete | frontend/src/pages/admin/ManageAdmins.jsx:70-81 | removal is requested exactly when confirmed, for that id, and a truthy result refetches |
| AdminFetchCycle.ManageAdminsRouteFound | frontend/src/App.jsx:304-311 | `/admin/admins` is matched by its own route, the super-admin-only management page |
| AdminFetchCycle.ManageAdminsScreens | frontend/src/App.jsx:61-65 | for a settled super administrator `/admin/admins` renders the management page, and while the admin provider loads it renders only the spinner |
| AdminFetchCycle.Settle | frontend/src/context/AdminAuthContext.jsx:88-99 | a settled `getAdmins` call that turned the provider's flag on leaves a freshly mounted page that calls again; one that did not fills the table and ends loading |
| AdminFetchCycle.FetchLoopsAsWritten | frontend/src/pages/admin/ManageAdmins.jsx:17-31 | as written, after any number of settled calls with any lists, every call has been followed by another and the page shown is a fresh one in its loading view |
| AdminFetchCycle.FetchSettlesCorrected | frontend/src/pages/admin/ManageAdmins.jsx:17-31 | with only the page's own loading flag, the first settled call fills the table with its list, no further call is made and the table is shown |
| ClockTime.Hour | frontend/src/pages/doctor/DoctorSchedule.jsx:150-151 | the hour of an `"HH:mm"` time lies in 0..23 |
| ClockTime.Minute | frontend/src/pages/doctor/DoctorSchedule.jsx:150 | the minute of an `"HH:mm"` time lies in 0..59 |
| ClockTime.MinuteOfDay | frontend/src/pages/doctor/DoctorSchedule.jsx:63 | minutes since midnight lie below 24 * 60 |
| ClockTime.SplitHhMm | frontend/src/pages/doctor/DoctorSchedule.jsx:150-151 | `split(":")` of an `"HH:mm"` time gives the hour digits and the minute digits, and the hour digits denote the hour |
| ClockTime.Hour12 | frontend/src/pages/doctor/DoctorSchedule.jsx:153 | `hour % 12 \|\| 12` lies in 1..12 and agrees with the hour modulo 12 |
| ClockTime.FormatTime | frontend/src/pages/doctor/DoctorSchedule.jsx:149-155 | the 12-hour text is 7 or 8 characters long, ends in " PM" exactly from noon on and in " AM" exactly before, and reads back through `To24` as the original `"HH:mm"`, so it loses nothing |
| ClockTime.FormatTimeShape | frontend/src/components/TimeSlotPicker.jsx:10-16 | the text is the 12-hour value, `:`, the minute text copied unchanged, a space and the period |
| ClockTime.FormatTimeMidnightNoon | frontend/src/pages/doctor/DoctorSchedule.jsx:149-155 | hour 0 reads `"12:mm AM"` and hour 12 reads `"12:mm PM"` |
| ClockTime.FormatTimeClockFace | frontend/src/components/TimeSlotPicker.jsx:13-15 | the text starts with some n in 1..12 with n equal to the hour modulo 12 |
| ClockTime.HourFromClockFace | frontend/src/pages/doctor/DoctorSchedule.jsx:152-153 | the 12-hour value and the period determine the hour |
| ClockTime.To24 | frontend/src/pages/doctor/DoctorSchedule.jsx:149-155 | the reading back of a 12-hour text only ever yields an `"HH:mm"` time |
| ClockTime.RenderedReadsBack | frontend/src/pages/doctor/DoctorSchedule.jsx:149-155 | the pieces `formatTime` assembles read back as the original time |
| ClockTime.HourText | frontend/src/pages/BookAppointment.jsx:95 | an `"HH:mm"` time is its padded hour, `:`, and its minute text |
| ClockTime.HhMmOrderIsTimeOrder | frontend/src/pages/doctor/DoctorSchedule.jsx:63 | on `"HH:mm"` times the string order is the order of minutes since midnight, so `startTime >= endTime` means the start is not earlier |
| DoctorSchedule.ApplyInput | frontend/src/pages/doctor/DoctorSchedule.jsx:53-59 | the checkbox stores `checked`, every other input stores its value, in its own field only |
| DoctorSchedule.FormOf | frontend/src/pages/doctor/DoctorSchedule.jsx:121-131 | the edit form copies exactly the slot's day, times, capacity and availability |
| DoctorSchedule.TimesRejectedIffNotAfter | frontend/src/pages/doctor/DoctorSchedule.jsx:63-66 | for times from a time input the string check rejects exactly the slots whose end is not after their start |
| DoctorSchedule.DefaultFormAccepted | frontend/src/pages/doctor/DoctorSchedule.jsx:134-142 | the default form (monday, 09:00 to 10:00) passes the time check |
| DoctorSchedule.Sections | frontend/src/pages/doctor/DoctorSchedule.jsx:350-364 | one section per day Monday to Saturday, in order, with that day's slots or none |
| DoctorSchedule.OnlyWeekdaysListed | frontend/src/pages/doctor/DoctorSchedule.jsx:350-364 | Sunday, or any other key, is never listed |
| DoctorSchedule.DoctorSchedulePage.constructor | frontend/src/pages/doctor/DoctorSchedule.jsx:21-31 | empty schedule, loading, add form closed, nothing being edited, default form |
| DoctorSchedule.DoctorSchedulePage.FinishFetch | frontend/src/pages/doctor/DoctorSchedule.jsx:41-51 | loading ends and a fetched schedule replaces the old one |
| DoctorSchedule.DoctorSchedulePage.HandleInputChange | frontend/src/pages/doctor/DoctorSchedule.jsx:53-59 | the form takes the input and nothing else changes |
| DoctorSchedule.DoctorSchedulePage.ResetForm | frontend/src/pages/doctor/DoctorSchedule.jsx:134-142 | the form becomes the default one |
| DoctorSchedule.DoctorSchedulePage.StartEditing | frontend/src/pages/doctor/DoctorSchedule.jsx:121-131 | the slot is being edited, the form holds its fields, and the add form is closed |
| DoctorSchedule.DoctorSchedulePage.CancelEditing | frontend/src/pages/doctor/DoctorSchedule.jsx:144-147 | nothing is being edited and the form is the default one |
| DoctorSchedule.DoctorSchedulePage.ToggleAddForm | frontend/src/pages/doctor/DoctorSchedule.jsx:174-179 | flips the add form, drops the slot being edited and resets the form |
| DoctorSchedule.DoctorSchedulePage.HandleAddTimeSlot | frontend/src/pages/doctor/DoctorSchedule.jsx:61-80 | a start not before the end is refused without a call; otherwise the form is sent and success closes the form, resets it and refetches, which leaves the page loading; otherwise `loading` is unchanged |
| DoctorSchedule.DoctorSchedulePage.HandleEditTimeSlot | frontend/src/pages/doctor/DoctorSchedule.jsx:82-102 | the same check; otherwise the slot's id and the form are sent and success stops editing, resets the form and refetches, which leaves the page loading; otherwise `loading` is unchanged |
| DoctorSchedule.HandleDeleteTimeSlot | frontend/src/pages/doctor/DoctorSchedule.jsx:104-118 | deletion is requested exactly when confirmed, and success refetches |
| TimeSlotPicker.SpotsLabel | frontend/src/components/TimeSlotPicker.jsx:43-49 | "1 spot left" for one, "N spots left" for more, "Fully booked" for none or fewer |
| TimeSlotPicker.DisabledIffFullyBooked | frontend/src/components/TimeSlotPicker.jsx:28-49 | a slot's button is disabled exactly when its label reads "Fully booked" |
| TimeSlotPicker.TimesText | frontend/src/components/TimeSlotPicker.jsx:43-44 | the times line is the formatted start, " - ", the formatted end, and both bounds read back from it |
| TimeSlotPicker.ButtonFor | frontend/src/components/TimeSlotPicker.jsx:25-50 | a slot's button carries its id, its times line and its spots label, is disabled exactly when no spot is left, and is highlighted exactly when it is the selected slot |
| TimeSlotPicker.Render | frontend/src/components/TimeSlotPicker.jsx:18-24 | a missing or empty list shows only the no-slots message; otherwise one button per slot, in the order given |
| TimeSlotPicker.SelectionHighlighted | frontend/src/components/TimeSlotPicker.jsx:32 | the highlighted buttons are exactly those carrying the selected id |
| TimeSlotPicker.Picker.constructor | frontend/src/components/TimeSlotPicker.jsx:4 | nothing is selected at first |
| TimeSlotPicker.Picker.HandleSelectSlot | frontend/src/components/TimeSlotPicker.jsx:6-9 | records the id and forwards the same id |
| Calendar.DaysInMonth | frontend/src/components/DatePicker.jsx:23 | every month has 28 to 31 days, and February has 29 exactly in leap years |
| Calendar.DayOfWeek | frontend/src/components/DatePicker.jsx:25 | the weekday lies in 0..6 |
| Calendar.Y2KSaturday | frontend/src/components/DatePicker.jsx:25 | 1 January 2000 falls on a Saturday (6), anchoring `getDay` |
| Calendar.NextDayFollows | frontend/src/components/DatePicker.jsx:31-33 | the next day is one day later and one weekday further |
| Calendar.WeekdayAdvances | frontend/src/components/DatePicker.jsx:25-33 | a date k days later is k weekdays further, modulo 7 |
| Calendar.BeforeIsEarlierTriple | frontend/src/components/DatePicker.jsx:41 | comparing dates by day number is comparing (year, month, day) lexicographically |
| Calendar.MonthStart | frontend/src/components/DatePicker.jsx:59-63 | `new Date(y, m, 1)` with an out-of-range month normalises to the first of the month that many months away |
| Calendar.NextMonth | frontend/src/components/DatePicker.jsx:62-64 | the first of the month one month later |
| Calendar.PreviousMonth | frontend/src/components/DatePicker.jsx:58-60 | the first of the month one month earlier |
| Calendar.MonthStepRollover | frontend/src/components/DatePicker.jsx:58-64 | stepping past December or before January changes the year |
| Calendar.MonthStepInverse | frontend/src/components/DatePicker.jsx:58-64 | stepping forward then back, or back then forward, returns to the first of the month |
| Calendar.FormatDateForInput | frontend/src/components/DatePicker.jsx:12-18 | no date gives `""`, and a date never does |
| Calendar.ParseDateInput | frontend/src/components/DatePicker.jsx:48-49 | only ten-character texts are read as dates |
| Calendar.FormatThenParse | frontend/src/components/DatePicker.jsx:12-18 | a four-digit-year date written as `year-MM-DD` reads back as itself |
| Calendar.FormattedLayout | frontend/src/components/DatePicker.jsx:14-17 | the text is the unpadded year, `-`, the month number (index plus one) padded to two, `-`, the day padded to two |
| Calendar.ParseThenFormat | frontend/src/components/DatePicker.jsx:12-18 | a valid input text whose year does not start with `0` is written back unchanged |
| DatePicker.FirstDayOfWeek | frontend/src/components/DatePicker.jsx:22-25 | the column of the first of the month lies in 0..6 |
| DatePicker.BuildGrid | frontend/src/components/DatePicker.jsx:20-36 | the two loops build `firstDayOfWeek` empty cells followed by the days 1..daysInMonth in order |
| DatePicker.GridColumnsAreWeekdays | frontend/src/components/DatePicker.jsx:20-36 | every day cell lies under the header of its own weekday |
| DatePicker.GridHasEveryDay | frontend/src/components/DatePicker.jsx:31-33 | every day of the month has its cell |
| DatePicker.PastIsEarlierDay | frontend/src/components/DatePicker.jsx:80-83 | a date is past exactly when its day comes before today's, so today is selectable |
| DatePicker.Picker.constructor | frontend/src/components/DatePicker.jsx:5-7 | nothing selected, the current month shown, an empty grid |
| DatePicker.Picker.RefreshGrid | frontend/src/components/DatePicker.jsx:20-36 | the grid becomes the grid of the shown month |
| DatePicker.Picker.HandleDateSelect | frontend/src/components/DatePicker.jsx:38-45 | no date or a past date is ignored; otherwise it is selected and forwarded; the day buttons are disabled by the same test |
| DatePicker.Picker.HandleInputChange | frontend/src/components/DatePicker.jsx:47-56 | an invalid or past typed date is ignored; otherwise it is selected, forwarded, and the shown month moves to its first day |
| DatePicker.Picker.GoToPreviousMonth | frontend/src/components/DatePicker.jsx:58-60 | the shown month steps back one |
| DatePicker.Picker.GoToNextMonth | frontend/src/components/DatePicker.jsx:62-64 | the shown month steps forward one |
| BookAppointment.FindSlot | frontend/src/pages/BookAppointment.jsx:90 | the first slot carrying the chosen id; nothing when no id is chosen or no slot carries it |
| BookAppointment.StartParts | frontend/src/pages/BookAppointment.jsx:95 | `split(":").map(Number)` gives the start's hour and minute |
| BookAppointment.AppointmentStart | frontend/src/pages/BookAppointment.jsx:96-97 | the selected date at a valid hour and minute with zero seconds and milliseconds |
| BookAppointment.StartIsSlotStart | frontend/src/pages/BookAppointment.jsx:95-97 | the composed hour and minute, padded, read as the slot's own start time |
| BookAppointment.DisplayedFee | frontend/src/pages/BookAppointment.jsx:150 | a missing or zero fee shows as 500, any other fee as itself |
| BookAppointment.Wizard.constructor | frontend/src/pages/BookAppointment.jsx:16-20 | step 1, nothing chosen, no slots, empty reason |
| BookAppointment.Wizard.HandleDateSelect | frontend/src/pages/BookAppointment.jsx:59-62 | a new date drops the chosen slot |
| BookAppointment.Wizard.FinishSlotFetch | frontend/src/pages/BookAppointment.jsx:45-56 | a fetched list replaces the offered slots |
| BookAppointment.Wizard.HandleTimeSlotSelect | frontend/src/pages/BookAppointment.jsx:64-66 | records the chosen slot id |
| BookAppointment.Wizard.SetReason | frontend/src/pages/BookAppointment.jsx:20 | stores the reason text |
| BookAppointment.Wizard.HandleContinue | frontend/src/pages/BookAppointment.jsx:68-74 | moves to step 2 exactly when a date and a slot are chosen; otherwise the step stays |
| BookAppointment.Wizard.HandleBack | frontend/src/pages/BookAppointment.jsx:76-78 | always returns to step 1 |
| BookAppointment.Wizard.HandleSubmit | frontend/src/pages/BookAppointment.jsx:80-103 | a blank reason stops it, then a chosen id no offered slot carries; otherwise the request holds exactly the doctor, the composed start and the reason |
| AppointmentStatus.Target | frontend/src/pages/admin/ManageAppointments.jsx:208-228 | Confirm asks for "confirmed", Complete for "completed", Cancel for "cancelled" |
| AppointmentStatus.Offered | frontend/src/pages/admin/ManageAppointments.jsx:206-234 | Confirm exactly for pending, Complete exactly for confirmed, Cancel exactly for pending or confirmed; some action exactly for those two |
| AppointmentStatus.TransitionsOffered | frontend/src/pages/admin/AppointmentDetails.jsx:204-232 | the offered changes are exactly pending to confirmed, confirmed to completed, and pending or confirmed to cancelled |
| AppointmentStatus.ClosedIsTerminal | frontend/src/pages/doctor/DoctorAppointmentDetails.jsx:218-246 | completed and cancelled appointments are offered nothing, so nothing leads out of them |
| AppointmentStatus.TransitionsMoveForward | frontend/src/pages/doctor/DoctorAppointments.jsx:197-241 | every offered change moves strictly forward (pending, confirmed, closed), so no status is offered back |
| AppointmentStatus.ActionCaption | frontend/src/pages/admin/ManageAppointments.jsx:212-232 | an idle caption never reads "Processing..." |
| AppointmentStatus.Buttons | frontend/src/pages/admin/AppointmentDetails.jsx:204-232 | one button per offered action, in order, disabled and captioned "Processing..." exactly while busy |
| AppointmentStatus.RowButtons | frontend/src/pages/admin/ManageAppointments.jsx:206-234 | a row's buttons are disabled exactly while `processingId` is that row's id |
| AppointmentStatus.ProcessingDisablesOneRow | frontend/src/pages/admin/ManageAppointments.jsx:206-234 | while one row is processing no other row is disabled, and none once `processingId` is null |
| StatusBadge.BadgeFor | frontend/src/components/AppointmentStatusBadge.jsx:1-30 | the four statuses get their labels and yellow, green, blue, red; any other status keeps its raw text and gets gray, and only those do |
| StatusBadge.BadgeTextIsCapitalized | frontend/src/components/AppointmentStatusBadge.jsx:6-29 | a known status's label is the status capitalised, an unknown one's is the status itself |
| UserAppointmentDetails.PatientButtons | frontend/src/pages/UserAppointmentDetails.jsx:184-203 | the payment button is shown exactly when payment is needed and the cancel button exactly when cancelling is allowed |
| UserAppointmentDetails.PaymentImpliesCancel | frontend/src/pages/UserAppointmentDetails.jsx:69-77 | needing payment implies being cancellable, and a loaded appointment is cancellable exactly when the staff screens offer it some action |
| UserAppointmentDetails.ClosedShowsNoButtons | frontend/src/pages/UserAppointmentDetails.jsx:184-203 | completed and cancelled appointments show neither button |
| UserAppointmentDetails.HandleCancelAppointment | frontend/src/pages/UserAppointmentDetails.jsx:35-49 | the cancellation is requested exactly when confirmed, and success refetches |
| ManageAppointments.FilteredAppointments | frontend/src/pages/admin/ManageAppointments.jsx:55-61 | keeps exactly the rows whose patient name, doctor name or status contains the term, ignoring case |
| ManageAppointments.EmptySearchKeepsAll | frontend/src/pages/admin/ManageAppointments.jsx:55-61 | an empty term keeps every row, in order |
| ManageAppointments.SearchKeepsOrder | frontend/src/pages/admin/ManageAppointments.jsx:55 | searching two halves and joining them is searching the whole list |
| ManageAppointments.ManageAppointmentsPage.constructor | frontend/src/pages/admin/ManageAppointments.jsx:8-13 | no rows, filter "all", empty search and date, nothing processing |
| ManageAppointments.ManageAppointmentsPage.SetFilter | frontend/src/pages/admin/ManageAppointments.jsx:15-99 | a tab sets the filter; the effect keyed on the filter and the date refetches with both exactly when the clicked filter differs from the current one, so clicking the active tab fetches nothing |
| ManageAppointments.ManageAppointmentsPage.SetSelectedDate | frontend/src/pages/admin/ManageAppointments.jsx:15-111 | the date input sets the date; a refetch with the filter and the new date happens exactly when the date changes |
| ManageAppointments.ManageAppointmentsPage.SetSearchTerm | frontend/src/pages/admin/ManageAppointments.jsx:118 | the search box sets the term only |
| ManageAppointments.ManageAppointmentsPage.FinishFetch | frontend/src/pages/admin/ManageAppointments.jsx:19-29 | a fetched list replaces the rows |
| ManageAppointments.ManageAppointmentsPage.BeginStatusChange | frontend/src/pages/admin/ManageAppointments.jsx:31-34 | marks the row as processing and requests the action's target status for it |
| ManageAppointments.ManageAppointmentsPage.EndStatusChange | frontend/src/pages/admin/ManageAppointments.jsx:35-43 | whatever the outcome nothing is processing afterwards; success refetches |
| AppointmentDetails.View | frontend/src/pages/admin/AppointmentDetails.jsx:57-69 | the spinner while loading, "Appointment not found" when loading ended without one, the details otherwise |
| AppointmentDetails.FormatDate | frontend/src/pages/admin/AppointmentDetails.jsx:44-55 | an empty or missing date gives `""`; any other goes to the locale formatter |
| AppointmentDetails.StatusLabelMatchesBadge | frontend/src/pages/admin/AppointmentDetails.jsx:164 | for the four known statuses the text label and the badge agree |
| AppointmentDetails.PaymentStatusColour | frontend/src/pages/admin/AppointmentDetails.jsx:173-178 | green exactly for completed, yellow exactly for pending, red for anything else |
| AppointmentDetails.PaymentLine | frontend/src/pages/admin/AppointmentDetails.jsx:169-183 | the payment line is shown exactly when a payment exists, with its capitalised status and colour |
| AppointmentDetails.DetailButtons | frontend/src/pages/admin/AppointmentDetails.jsx:204-232 | the offered actions, in order, all disabled exactly while processing; the doctor's appointment page renders the same buttons |
| AppointmentDetails.AppointmentDetailsPage.constructor | frontend/src/pages/admin/AppointmentDetails.jsx:11-13 | no appointment, loading, not processing |
| AppointmentDetails.AppointmentDetailsPage.FinishFetch | frontend/src/pages/admin/AppointmentDetails.jsx:18-29 | loading ends and a fetched appointment replaces the old one |
| AppointmentDetails.AppointmentDetailsPage.BeginStatusChange | frontend/src/pages/admin/AppointmentDetails.jsx:31-34 | processing starts and the action's target status is requested |
| AppointmentDetails.AppointmentDetailsPage.EndStatusChange | frontend/src/pages/admin/AppointmentDetails.jsx:35-42 | processing ends whatever the outcome; success refetches, and since the refetch turns `loading` on before its first wait, the page is loading afterwards exactly when it was or the change succeeded |
| DoctorAppointments.TabStatusFilter | frontend/src/pages/doctor/DoctorAppointments.jsx:23-30 | upcoming asks for "pending,confirmed", completed and cancelled for themselves, any other tab for `""` |
| DoctorAppointments.UpcomingTabIsOpenStatuses | frontend/src/pages/doctor/DoctorAppointments.jsx:23-30 | the upcoming tab's statuses are exactly those offered some action |
| DoctorAppointments.ClosedTabsHaveNoActions | frontend/src/pages/doctor/DoctorAppointments.jsx:23-30 | the completed and cancelled tabs list statuses offered no action |
| DoctorAppointments.EmptyMessage | frontend/src/pages/doctor/DoctorAppointments.jsx:129-133 | the empty-list message names the active tab |
| DoctorAppointments.TabLabelLowersBack | frontend/src/pages/doctor/DoctorAppointments.jsx:99 | for any tab key without capitals, lower-casing its caption gives the key back, so different tabs get different captions |
| DoctorAppointments.DoctorAppointmentsPage.constructor | frontend/src/pages/doctor/DoctorAppointments.jsx:10-14 | the upcoming tab, nothing processing |
| DoctorAppointments.DoctorAppointmentsPage.SelectTab | frontend/src/pages/doctor/DoctorAppointments.jsx:16-30 | a tab becomes active; the list is fetched with its status filter exactly when the tab differs from the active one |
| DoctorAppointments.DoctorAppointmentsPage.BeginStatusChange | frontend/src/pages/doctor/DoctorAppointments.jsx:41-44 | marks the row as processing and requests the target status |
| DoctorAppointments.DoctorAppointmentsPage.EndStatusChange | frontend/src/pages/doctor/DoctorAppointments.jsx:45-52 | nothing is processing afterwards; success refetches |
| DoctorAppointmentDetails.NotesButtonCaption | frontend/src/pages/doctor/DoctorAppointmentDetails.jsx:175-178 | "Edit Notes" exactly when stored notes are non-empty, "Add Notes" otherwise |
| DoctorAppointmentDetails.DoctorAppointmentDetailsPage.constructor | frontend/src/pages/doctor/DoctorAppointmentDetails.jsx:15-19 | no appointment, empty notes, not editing, not processing |
| DoctorAppointmentDetails.DoctorAppointmentDetailsPage.FinishFetch | frontend/src/pages/doctor/DoctorAppointmentDetails.jsx:25-37 | a fetched appointment replaces the old one and the notes become its notes or `""` |
| DoctorAppointmentDetails.DoctorAppointmentDetailsPage.StartEditingNotes | frontend/src/pages/doctor/DoctorAppointmentDetails.jsx:176-177 | enters note editing and changes nothing else |
| DoctorAppointmentDetails.DoctorAppointmentDetailsPage.SetNotes | frontend/src/pages/doctor/DoctorAppointmentDetails.jsx:186 | stores the typed notes |
| DoctorAppointmentDetails.DoctorAppointmentDetailsPage.CancelEditingNotes | frontend/src/pages/doctor/DoctorAppointmentDetails.jsx:192-195 | leaves note editing and restores the stored notes or `""` |
| DoctorAppointmentDetails.DoctorAppointmentDetailsPage.HandleSaveNotes | frontend/src/pages/doctor/DoctorAppointmentDetails.jsx:56-68 | the current notes are sent; success leaves editing mode and refetches; processing ends either way |
| DoctorAppointmentDetails.DoctorAppointmentDetailsPage.HandleStatusChange | frontend/src/pages/doctor/DoctorAppointmentDetails.jsx:39-54 | a declined dialog makes no call and changes nothing; otherwise the target status is sent, processing ends, success refetches |
| ManageDoctors.FilteredDoctors | frontend/src/pages/admin/ManageDoctors.jsx:68-78 | keeps exactly the doctors that pass both the filter and the search, in order |
| ManageDoctors.VerifiedAndPendingPartition | frontend/src/pages/admin/ManageDoctors.jsx:69-70 | a doctor matching the search is listed under exactly one of "verified" and "pending", and always under "all" |
| ManageDoctors.UnknownFilterListsNone | frontend/src/pages/admin/ManageDoctors.jsx:68-78 | any filter other than the three known ones lists nobody |
| ManageDoctors.AllWithEmptySearchKeepsAll | frontend/src/pages/admin/ManageDoctors.jsx:68-78 | filter "all" with an empty search lists every doctor in order |
| ManageDoctors.RowActions | frontend/src/pages/admin/ManageDoctors.jsx:185-203 | Verify exactly for unverified doctors, Unverify exactly for verified ones, Delete always |
| ManageDoctors.StatusText | frontend/src/pages/admin/ManageDoctors.jsx:173-181 | "Verified" exactly for verified doctors, "Pending" otherwise |
| ManageDoctors.ActionCall | frontend/src/pages/admin/ManageDoctors.jsx:36-66 | verify and reject are called at once; delete only after confirmation |
| ManageDoctors.ManageDoctorsPage.constructor | frontend/src/pages/admin/ManageDoctors.jsx:8-11 | no doctors, filter "all", empty search |
| ManageDoctors.ManageDoctorsPage.ApplyQuery | frontend/src/pages/admin/ManageDoctors.jsx:14-22 | a present, non-empty `?filter=` value overrides the filter; otherwise it stays |
| ManageDoctors.ManageDoctorsPage.SetFilter | frontend/src/pages/admin/ManageDoctors.jsx:94-110 | a filter button sets the filter only |
| ManageDoctors.ManageDoctorsPage.SetSearchTerm | frontend/src/pages/admin/ManageDoctors.jsx:124 | the search box sets the term only |
| ManageDoctors.ManageDoctorsPage.FinishFetch | frontend/src/pages/admin/ManageDoctors.jsx:24-34 | a fetched list replaces the doctors |
| FindDoctors.FilteredDoctors | frontend/src/pages/FindDoctors.jsx:45-54 | keeps exactly the doctors whose name or specialization contains the search, ignoring case, and whose specialization equals the chosen one ignoring case, when one is chosen |
| FindDoctors.EmptyCriteriaKeepAll | frontend/src/pages/FindDoctors.jsx:45-54 | an empty search with no specialization keeps every doctor in order |
| FindDoctors.FilterKeepsOrder | frontend/src/pages/FindDoctors.jsx:45 | filtering two halves and joining them is filtering the whole list |
| FindDoctors.ChosenSpecializationMatchesSearch | frontend/src/pages/FindDoctors.jsx:46-51 | a doctor of the chosen specialization also matches that specialization typed as the search |
| FindDoctors.SpecializationIgnoresCase | frontend/src/pages/FindDoctors.jsx:50-51 | a specialization differing only in letter case matches |
| ManagePayments.FilteredPayments | frontend/src/pages/admin/ManagePayments.jsx:62-69 | keeps exactly the payments whose user name, doctor name, status or gateway id contains the term, ignoring case |
| ManagePayments.EmptySearchKeepsAll | frontend/src/pages/admin/ManagePayments.jsx:62-69 | an empty term keeps every payment, in order |
| ManagePayments.GatewayIdFindsPayment | frontend/src/pages/admin/ManagePayments.jsx:67 | searching for a payment's own gateway id finds it |
| ManagePayments.StatusColour | frontend/src/pages/admin/ManagePayments.jsx:213-220 | green exactly for completed, yellow for pending, red for failed, purple for anything else |
| ManagePayments.PaymentIdText | frontend/src/pages/admin/ManagePayments.jsx:226 | a missing or empty gateway id shows "N/A" |
| ManagePayments.RefundButtonFor | frontend/src/pages/admin/ManagePayments.jsx:234-242 | a refund button exactly for completed payments, disabled and reading "Processing..." exactly while that payment is processing |
| ManagePayments.RefundOnlyCompleted | frontend/src/pages/admin/ManagePayments.jsx:213-242 | a payment that is not completed has no refund button and no green badge |
| ManagePayments.ManagePaymentsPage.constructor | frontend/src/pages/admin/ManagePayments.jsx:7-12 | no payments, filter "all", empty search and date, nothing processing |
| ManagePayments.ManagePaymentsPage.SetFilter | frontend/src/pages/admin/ManagePayments.jsx:14-107 | a status button sets the filter; the effect keyed on the filter and the date refetches with both exactly when the clicked status differs from the current one |
| ManagePayments.ManagePaymentsPage.SetSelectedDate | frontend/src/pages/admin/ManagePayments.jsx:14-119 | the date input sets the date; a refetch with the filter and the new date happens exactly when the date changes |
| ManagePayments.ManagePaymentsPage.SetSearchTerm | frontend/src/pages/admin/ManagePayments.jsx:126 | the search box sets the term only |
| ManagePayments.ManagePaymentsPage.FinishFetch | frontend/src/pages/admin/ManagePayments.jsx:18-28 | a fetched list replaces the payments |
| ManagePayments.ManagePaymentsPage.BeginRefund | frontend/src/pages/admin/ManagePayments.jsx:30-36 | a declined dialog does nothing; otherwise the payment is processing and its refund is requested |
| ManagePayments.ManagePaymentsPage.EndRefund | frontend/src/pages/admin/ManagePayments.jsx:37-43 | nothing is processing afterwards; success refetches |
| Guards.PrivateRoute | frontend/src/components/PrivateRoute.jsx:5-18 | loading shows the spinner; otherwise unauthenticated goes to `/login`; the children show exactly when not loading and authenticated |
| Guards.RequireVerification | frontend/src/components/DoctorPrivateRoute.jsx:5 | an omitted `requireVerification` is true |
| Guards.DoctorPrivateRoute | frontend/src/components/DoctorPrivateRoute.jsx:5-22 | loading first, then `/doctor/login` when unauthenticated, then `/doctor/pending` when verification is required and missing; the children otherwise, and only then |
| Guards.SuperAdminOnly | frontend/src/components/AdminPrivateRoute.jsx:5 | an omitted `superAdminOnly` is false |
| Guards.AdminPrivateRoute | frontend/src/components/AdminPrivateRoute.jsx:5-22 | loading first, then `/admin/login` when unauthenticated, then `/admin/dashboard` for a non-super admin on a super-admin page; the children otherwise, and only then |
| Guards.DoctorGuardDefaults | frontend/src/components/DoctorPrivateRoute.jsx:5-22 | the default requires verification, and with it off an authenticated unverified doctor gets the children |
| Guards.AdminGuardDefaults | frontend/src/components/AdminPrivateRoute.jsx:5-22 | by default every authenticated administrator gets the children |
| Guards.RedirectTargetsAdmit | frontend/src/components/DoctorPrivateRoute.jsx:18-20 | the guards' own redirects land on pages the same user is admitted to, so they do not loop |
| AppRoutes.DoctorSectionPrefix | frontend/src/App.jsx:58 | a path is a doctor route exactly when "/doctor" is followed by "/"; every path that starts with "/doctor" without that slash (the bare "/doctor", the patient pages "/doctor-...") gets the patients' navbar |
| AppRoutes.AdminSectionPrefix | frontend/src/App.jsx:59 | a path is an admin route exactly when "/admin" is followed by "/"; every path that starts with "/admin" without that slash gets the patients' navbar |
| AppRoutes.NavbarFor | frontend/src/App.jsx:71 | the admin navbar exactly on admin routes, the doctor navbar exactly on the other doctor routes, the patient navbar elsewhere |
| AppRoutes.SectionsDisjoint | frontend/src/App.jsx:58-59 | no path is both a doctor route and an admin route |
| AppRoutes.FindRoute | frontend/src/App.jsx:75-353 | a found route is in the table and matches the path; none is found exactly when no later entry matches |
| AppRoutes.Guarded | frontend/src/App.jsx:139-349 | a guard's spinner, redirect or children become the screen |
| AppRoutes.HomeRedirect | frontend/src/App.jsx:75-90 | `/` goes to the patient, else doctor, else admin dashboard, whichever is signed in first; Home only when none is |
| AppRoutes.DoctorHome | frontend/src/App.jsx:103-131 | a verified doctor goes to the dashboard, an unverified one to `/doctor/pending` |
| AppRoutes.Element | frontend/src/App.jsx:75-349 | open pages render; login and register pages redirect signed-in users to their home; `/doctor/pending` sends a verified doctor to the dashboard and shows any other doctor its guard's outcome without requiring verification; `/` renders Home exactly when nobody is signed in; every patient, doctor and admin page shows the outcome of its own guard with the route's props |
| AppRoutes.Resolve | frontend/src/App.jsx:61-65 | while any provider is loading only the spinner shows; a path no route matches goes to `/` |
| AppRoutes.ElementRendersIffAdmitted | frontend/src/App.jsx:75-349 | a route renders its own page exactly when the session is admitted to its access rule |
| AppRoutes.RenderedPagesAreAdmitted | frontend/src/App.jsx:73-355 | whatever page shows at a path comes from a route matching it whose access the session meets |
| AppRoutes.RootRoute | frontend/src/App.jsx:75-90 | once nothing is loading, `/` redirects to the home of whoever is signed in, else shows Home |
| Faq.IsExpanded | frontend/src/pages/FAQ.jsx:323-330 | an answer shows exactly when its id has a true entry; an absent one reads as collapsed |
| Faq.Toggled | frontend/src/pages/FAQ.jsx:23-27 | the id's entry becomes the negation of its shown state; every other entry is kept as it was |
| Faq.FaqPage.constructor | frontend/src/pages/FAQ.jsx:21 | no item is expanded at first |
| Faq.FaqPage.ToggleItem | frontend/src/pages/FAQ.jsx:23-27 | flips the clicked item and leaves every other item as shown |
| Faq.ToggleTwiceRestoresView | frontend/src/pages/FAQ.jsx:23-27 | toggling one id twice restores every item's view |
| Faq.TogglesCommute | frontend/src/pages/FAQ.jsx:23-27 | toggling two different ids gives the same map in either order |
| Text.Capitalize | frontend/src/pages/admin/ManagePayments.jsx:222 | `charAt(0).toUpperCase() + slice(1)`, used for the payment and appointment status text, the doctor's tab captions and the schedule's day headings: same length, first character upper-cased, rest unchanged |
| Text.ToLower | frontend/src/pages/admin/ManageDoctors.jsx:72-75 | each ASCII capital becomes its small letter; nothing else changes |
| Text.TrimStart | frontend/src/hooks/useForm.jsx:30 | `trim` drops exactly the leading white space |
| Text.TrimEnd | frontend/src/hooks/useForm.jsx:30 | `trim` drops exactly the trailing white space |
| Text.BlankIffAllSpace | frontend/src/hooks/useForm.jsx:30 | `!value.trim()` holds exactly when every character is white space |
| Text.EmptyTermMatches | frontend/src/pages/FindDoctors.jsx:47 | the empty search term is contained in every field |
| Text.Split | frontend/src/pages/doctor/DoctorSchedule.jsx:150 | `split` gives at least one part and no part contains the separator |
| Text.SplitJoin | frontend/src/pages/doctor/DoctorSchedule.jsx:150 | joining the parts with the separator gives back the string |
| Text.NatToString | frontend/src/components/TimeSlotPicker.jsx:43-49 | the decimal text of a number: digits with no leading zero that denote it |
| Text.Pad2 | frontend/src/components/DatePicker.jsx:15-16 | `padStart(2, "0")`: at least two digits denoting the number, exactly two below 100 |
| Text.TwoDigitsPad | frontend/src/components/DatePicker.jsx:15-16 | two digits are the padded text of their own value |
| Base.OrEmpty | frontend/src/pages/doctor/DoctorAppointmentDetails.jsx:30 | a missing string reads as `""`, a present one as itself |
| Base.Filter | frontend/src/pages/admin/ManageAppointments.jsx:55 | keeps exactly the elements that pass, as a sub-multiset of the input |
| Base.FilterAppend | frontend/src/pages/FindDoctors.jsx:45 | filtering keeps the relative order of the kept elements |

## Left out

- Network services are not part of this model. Each awaited call is a boolean
  or `Option` parameter saying whether it resolved and with what. The URL and
  query building inside the service clients is left out, and so is the backend's
  own enforcement: slot capacity, double booking, payment verification and its
  status transitions.
- The context providers (patient, doctor and administrator authentication) are
  not part of this model. Their derived flags (authenticated, verified, super
  admin, loading) are inputs to the guards and pages. Several provider calls
  that pages make turn the loading flag on; the members affected are listed
  below.
- `window.confirm`, toasts, `navigate` after a failed fetch, `FileReader` image
  previews, scrolling and the list pages' loading spinners are browser effects.
  A confirm result is a boolean parameter. The other effects are not modelled.
- Time zones and locales are left out: `toISOString`, `toLocaleDateString` and
  the UTC reading of `new Date("YYYY-MM-DD")` depend on them.
  - `AppointmentDetails.FormatDate` takes the locale formatter as a parameter.
  - `ParseDateInput` reads the typed text as a local calendar date.
  - `BookAppointment.Wizard.HandleSubmit` returns the local date and time rather than its ISO text.
  - The doctor's appointment list's date picker is not modelled. Clearing its
    input stores an invalid date (`new Date("")`), whose `toISOString` throws
    while the page renders.
  - The slot request of the booking page turns the local-midnight date into
    text with `toISOString().split("T")[0]`, so east of UTC it asks for the
    previous day's slots. The model reads the selected local date.
- `formatAmount` (`toFixed(2)`) and the payment arithmetic are floating point and are left out.
- The list pages' `formatDate` helpers are left out; they only call the locale formatter.
- `toLowerCase`/`toUpperCase` are modelled on ASCII letters only. Other Unicode
  case mappings and UTF-16 code units are not modelled.
- ClockTime.FormatTime: stated only for `"HH:mm"` inputs. That is the format the
  time inputs and the stored slots use. Other strings (`"9:5"`, text with
  seconds) are outside the model.
- TimeSlotPicker.Render: requires every offered slot to have `"HH:mm"` bounds,
  since its buttons show them through `formatTime`.
- BookAppointment.Wizard.HandleSubmit: requires every offered slot to start at an
  `"HH:mm"` time. The source would build an invalid date from other text.
- The `processing`, `submitting` and `cancelling` flags that a handler sets
  before its awaited call and clears in `finally` are folded into one method,
  or into a Begin/End pair where the flag decides which buttons are disabled.
- The `minDate` prop of the date picker is never read by the source. The lower
  bound is always today, which is a parameter of the handlers.
- Calendar.MonthStart: `new Date(y, m, 1)` reads a year argument in 0..99 as
  1900..1999 before it carries the month; the model keeps the year as given.
  `NextMonth`, `PreviousMonth`, the picker's month steps and the grid's
  `new Date(y, m, i)` therefore differ from the browser only for the years
  0..99, which the picker reaches only after tens of thousands of clicks back.
- Register.RegisterPage.HandleSubmit: holds within one mount of the page.
  The provider's `register` turns its `loading` flag on, the route tree then
  shows only the spinner and the page is discarded, so after the call the
  page comes back empty; the kept form after a failed registration is not
  what the user sees.
- DoctorRegister.DoctorRegisterPage.HandleSubmit: holds within one mount, for
  the same reason; the doctor provider's `register` turns its flag on.
- AdminProfile.AdminProfilePage.HandleSubmit: holds within one mount;
  `updateProfile` turns the admin provider's flag on, and the page comes back
  with its initial state, reloaded from the administrator record.
- ManageAdmins.ManageAdminsPage.HandleSubmit: holds within one mount;
  `createNewAdmin` turns the admin provider's flag on, so the page comes back
  in its initial state whatever the result.
- ManageAdmins.HandleDelete: holds within one mount; `removeAdmin` turns the
  admin provider's flag on.
- ManageAdmins.ManageAdminsPage.FinishFetch: applies to a page that stays
  mounted, the behaviour `AdminFetchCycle.FetchSettlesCorrected` describes. As
  written `getAdmins` discards the page (see "## Findings").
- Route matching: react-router ranks routes rather than taking the first match.
  No two patterns of the table overlap, so the first match in `AppRoutes.Routes`
  is the ranked match. Trailing slashes and case-insensitive matching of paths
  are not modelled.
- AppRoutes.RootRoute: `/` is the only path whose table lookup is proved
  concretely. For every other path the model proves generic statements about
  `Element` and `Resolve` (a rendered page is always admitted).
- The presentation-only pages, the navbars' own contents, the login pages, the
  dashboards, and the patient's and the doctor's own profile pages are not part
  of this model. The administrator's profile page is modelled (`AdminProfile`).
- `Patterns.IsPhone` is written as a predicate (ten ASCII digits) and is stated
  through `DoctorRegister.DoctorRulesAccept`. The email pattern has its own
  reading as a regular language (`Patterns.EmailMatchesRegex`).

## Findings

| source | as written | input that shows it | evidently intended | confidence | as-written member | corrected member |
|---|---|---|---|---|---|---|
| frontend/src/context/AdminAuthContext.jsx:88-99 | `getAdmins` turns the admin provider's `loading` flag on; the route tree then shows only the spinner, discarding the management page, and the page mounted after the call settles calls `getAdmins` again from its mount effect | a super administrator opening `/admin/admins`: every call is followed by another and the table never appears | the list fetch uses only the page's own `loading`, so the first settled call fills the table | not executed | AdminFetchCycle.FetchLoopsAsWritten | AdminFetchCycle.FetchSettlesCorrected |
