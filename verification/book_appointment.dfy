/**
 * The two-step booking wizard (frontend/src/pages/BookAppointment.jsx): pick a
 * date and a slot, continue, give a reason, submit. Submitting composes the
 * appointment's start from the chosen date and the slot's start time.
 */
module BookAppointment {
  import opened Base
  import opened Text
  import opened ClockTime
  import opened Calendar
  import opened TimeSlotPicker

  /** A local date and time: `appointmentDate` after `setHours`. */
  datatype DateTime = DateTime(date: CalendarDate, hours: int, minutes: int, seconds: int, millis: int)

  /** `appointmentData`: what `createAppointment` receives. */
  datatype AppointmentRequest = AppointmentRequest(doctorId: string, date: DateTime, reason: string)

  /** How `handleSubmit` ends. */
  datatype SubmitOutcome = ReasonMissing | SlotNotFound | Sent(request: AppointmentRequest)

  /** `availableTimeSlots.find((slot) => slot._id === id)`: the first slot with
      that id. No id finds nothing. */
  function FindSlot(slots: seq<Slot>, id: Option<string>): (r: Option<Slot>)
    ensures r.None? <==> id.None? || forall k :: 0 <= k < |slots| ==> slots[k].id != id.value
    ensures r.Some? ==> exists k :: 0 <= k < |slots| && slots[k] == r.value && r.value.id == id.value &&
                          forall j :: 0 <= j < k ==> slots[j].id != id.value
  {
    if id.None? || |slots| == 0 then None
    else if slots[0].id == id.value then Some(slots[0])
    else
      var rest := FindSlot(slots[1..], id);
      if rest.Some? then
        var k :| 0 <= k < |slots[1..]| && slots[1..][k] == rest.value && rest.value.id == id.value &&
                 forall j :: 0 <= j < k ==> slots[1..][j].id != id.value;
        assert slots[k + 1] == rest.value;
        rest
      else rest
  }

  /** `startTime.split(":").map(Number)`: the hour and the minute of an
      `"HH:mm"` start time. */
  function StartParts(startTime: string): (hm: (int, int))
    requires IsHhMm(startTime)
    ensures hm == (Hour(startTime), Minute(startTime))
  {
    SplitHhMm(startTime);
    var parts := Split(startTime, ':');
    TwoDigitsValue(parts[1]);
    (DigitsValue(parts[0]), DigitsValue(parts[1]))
  }

  /** `new Date(selectedDate)` followed by `setHours(hours, minutes, 0, 0)`. */
  function AppointmentStart(date: CalendarDate, startTime: string): (t: DateTime)
    requires IsHhMm(startTime)
    ensures t.date == date && t.seconds == 0 && t.millis == 0
    ensures 0 <= t.hours < 24 && 0 <= t.minutes < 60
  {
    var (hours, minutes) := StartParts(startTime);
    DateTime(date, hours, minutes, 0, 0)
  }

  /** The composed start reads as the slot's own start time: its hour and
      minute, padded, give back `"HH:mm"`. */
  lemma StartIsSlotStart(date: CalendarDate, startTime: string)
    requires IsHhMm(startTime)
    ensures var t := AppointmentStart(date, startTime);
            Pad2(t.hours) + ":" + Pad2(t.minutes) == startTime
  {
    HourText(startTime);
    TwoDigitsValue(startTime[3..]);
    TwoDigitsPad(startTime[3..]);
  }

  /** `doctor.consultationFee || 500`: a missing or zero fee shows as 500. */
  function DisplayedFee(consultationFee: Option<int>): (fee: int)
    ensures consultationFee.None? || consultationFee.value == 0 ==> fee == 500
    ensures consultationFee.Some? && consultationFee.value != 0 ==> fee == consultationFee.value
  {
    if consultationFee.Some? && consultationFee.value != 0 then consultationFee.value else 500
  }

  /** A truthy slot id: present and not the empty string. */
  predicate HasSlotId(id: Option<string>) {
    id.Some? && id.value != ""
  }

  class Wizard {
    var selectedDate: Option<CalendarDate>
    var selectedTimeSlotId: Option<string>
    var availableTimeSlots: seq<Slot>
    var reason: string
    var step: int

    /** Step 2 is only ever shown with a date and a slot chosen. */
    predicate Valid()
      reads this
    {
      (step == 1 || step == 2) && (step == 2 ==> selectedDate.Some? && HasSlotId(selectedTimeSlotId))
    }

    constructor ()
      ensures Valid() && step == 1
      ensures selectedDate == None && selectedTimeSlotId == None && availableTimeSlots == [] && reason == ""
    {
      selectedDate := None;
      selectedTimeSlotId := None;
      availableTimeSlots := [];
      reason := "";
      step := 1;
    }

    /** `handleDateSelect`, reached from the date picker of step 1: a new date
        drops the chosen slot. */
    method HandleDateSelect(date: CalendarDate)
      requires Valid() && step == 1
      modifies this
      ensures Valid() && step == 1
      ensures selectedDate == Some(date) && selectedTimeSlotId == None
      ensures availableTimeSlots == old(availableTimeSlots) && reason == old(reason)
    {
      selectedDate := Some(date);
      selectedTimeSlotId := None;
    }

    /** The end of `fetchAvailableTimeSlots`: a fetched list replaces the slots. */
    method FinishSlotFetch(slots: Option<seq<Slot>>)
      requires Valid()
      modifies this
      ensures Valid()
      ensures availableTimeSlots == if slots.Some? then slots.value else old(availableTimeSlots)
      ensures selectedDate == old(selectedDate) && selectedTimeSlotId == old(selectedTimeSlotId)
      ensures reason == old(reason) && step == old(step)
    {
      if slots.Some? {
        availableTimeSlots := slots.value;
      }
    }

    /** `handleTimeSlotSelect`, reached from the slot picker of step 1. */
    method HandleTimeSlotSelect(timeSlotId: string)
      requires Valid() && step == 1
      modifies this
      ensures Valid() && step == 1
      ensures selectedTimeSlotId == Some(timeSlotId)
      ensures selectedDate == old(selectedDate) && availableTimeSlots == old(availableTimeSlots) && reason == old(reason)
    {
      selectedTimeSlotId := Some(timeSlotId);
    }

    /** The reason text area. */
    method SetReason(text: string)
      requires Valid()
      modifies this
      ensures Valid() && reason == text
      ensures selectedDate == old(selectedDate) && selectedTimeSlotId == old(selectedTimeSlotId)
      ensures availableTimeSlots == old(availableTimeSlots) && step == old(step)
    {
      reason := text;
    }

    /** `handleContinue`: moves to step 2 only with both a date and a slot
        chosen, the same condition that enables the Continue button. */
    method HandleContinue() returns (advanced: bool)
      requires Valid()
      modifies this
      ensures Valid()
      ensures advanced <==> old(selectedDate).Some? && HasSlotId(old(selectedTimeSlotId))
      ensures step == if advanced then 2 else old(step)
      ensures selectedDate == old(selectedDate) && selectedTimeSlotId == old(selectedTimeSlotId)
      ensures availableTimeSlots == old(availableTimeSlots) && reason == old(reason)
    {
      advanced := selectedDate.Some? && HasSlotId(selectedTimeSlotId);
      if !advanced {
        return;
      }
      step := 2;
    }

    /** `handleBack`. */
    method HandleBack()
      requires Valid()
      modifies this
      ensures Valid() && step == 1
      ensures selectedDate == old(selectedDate) && selectedTimeSlotId == old(selectedTimeSlotId)
      ensures availableTimeSlots == old(availableTimeSlots) && reason == old(reason)
    {
      step := 1;
    }

    /** `handleSubmit` in step 2, for the page's `doctorId`. A blank reason
        stops it, then a chosen id that no offered slot carries; otherwise the
        request holds the doctor, the composed start and the reason as typed.
        The offered slots carry `"HH:mm"` start times. */
    method HandleSubmit(doctorId: string) returns (outcome: SubmitOutcome)
      requires Valid() && step == 2
      requires forall k :: 0 <= k < |availableTimeSlots| ==> IsHhMm(availableTimeSlots[k].startTime)
      ensures outcome.ReasonMissing? <==> IsBlank(reason)
      ensures outcome.SlotNotFound? <==> !IsBlank(reason) && FindSlot(availableTimeSlots, selectedTimeSlotId).None?
      ensures outcome.Sent? ==>
                var slot := FindSlot(availableTimeSlots, selectedTimeSlotId).value;
                outcome.request == AppointmentRequest(doctorId, AppointmentStart(selectedDate.value, slot.startTime), reason)
    {
      if IsBlank(reason) {
        return ReasonMissing;
      }
      var selectedSlot := FindSlot(availableTimeSlots, selectedTimeSlotId);
      if selectedSlot.None? {
        return SlotNotFound;
      }
      var appointmentDate := AppointmentStart(selectedDate.value, selectedSlot.value.startTime);
      outcome := Sent(AppointmentRequest(doctorId, appointmentDate, reason));
    }
  }
}
