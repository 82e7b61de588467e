/**
 * The doctor's weekly schedule editor (frontend/src/pages/doctor/DoctorSchedule.jsx):
 * the slot form and its handlers, the start-before-end check in front of the
 * create and update calls, and the day-by-day listing.
 */
module DoctorSchedule {
  import opened Base
  import opened Text
  import opened ClockTime

  /** `maxAppointments` starts as the number 1; the number input then stores
      the text the user typed. */
  datatype MaxValue = Count(n: int) | Typed(text: string)

  /** The slot form's `formData`. */
  datatype SlotForm = SlotForm(day: string, startTime: string, endTime: string,
                               maxAppointments: MaxValue, isAvailable: bool)

  /** A slot of the fetched schedule. */
  datatype ScheduleSlot = ScheduleSlot(id: string, day: string, startTime: string, endTime: string,
                                       maxAppointments: MaxValue, isAvailable: bool)

  /** The change events the form's inputs raise: `name` and `value`, or
      `checked` for the checkbox. */
  datatype InputEvent =
    | DaySelect(value: string)
    | StartTimeInput(value: string)
    | EndTimeInput(value: string)
    | MaxAppointmentsInput(value: string)
    | AvailableCheckbox(checked: bool)

  const DefaultForm := SlotForm("monday", "09:00", "10:00", Count(1), true)

  /** `daysOfWeek`: Monday to Saturday, in order. */
  const DaysOfWeek: seq<string> := ["monday", "tuesday", "wednesday", "thursday", "friday", "saturday"]

  /** `{...formData, [name]: type === "checkbox" ? checked : value}`. */
  function ApplyInput(f: SlotForm, ev: InputEvent): (r: SlotForm)
    ensures ev.AvailableCheckbox? ==> r == f.(isAvailable := ev.checked)
    ensures ev.DaySelect? ==> r == f.(day := ev.value)
    ensures ev.StartTimeInput? ==> r == f.(startTime := ev.value)
    ensures ev.EndTimeInput? ==> r == f.(endTime := ev.value)
    ensures ev.MaxAppointmentsInput? ==> r == f.(maxAppointments := Typed(ev.value))
  {
    match ev
    case DaySelect(v) => f.(day := v)
    case StartTimeInput(v) => f.(startTime := v)
    case EndTimeInput(v) => f.(endTime := v)
    case MaxAppointmentsInput(v) => f.(maxAppointments := Typed(v))
    case AvailableCheckbox(c) => f.(isAvailable := c)
  }

  /** The form a slot is edited in: exactly its five editable fields. */
  function FormOf(slot: ScheduleSlot): (f: SlotForm)
    ensures f.day == slot.day && f.startTime == slot.startTime && f.endTime == slot.endTime
    ensures f.maxAppointments == slot.maxAppointments && f.isAvailable == slot.isAvailable
  {
    SlotForm(slot.day, slot.startTime, slot.endTime, slot.maxAppointments, slot.isAvailable)
  }

  /** `formData.startTime >= formData.endTime`: the string comparison that
      makes add and edit refuse the form. */
  predicate TimesRejected(f: SlotForm) {
    NotBefore(f.startTime, f.endTime)
  }

  /** On times from a time input the string check is the time-of-day check: a
      slot is refused exactly when it does not end after it starts. */
  lemma TimesRejectedIffNotAfter(f: SlotForm)
    requires IsHhMm(f.startTime) && IsHhMm(f.endTime)
    ensures TimesRejected(f) <==> MinuteOfDay(f.endTime) <= MinuteOfDay(f.startTime)
  {
    HhMmOrderIsTimeOrder(f.startTime, f.endTime);
  }

  /** The default form is a valid one-hour slot. */
  lemma DefaultFormAccepted()
    ensures IsHhMm(DefaultForm.startTime) && IsHhMm(DefaultForm.endTime)
    ensures !TimesRejected(DefaultForm)
  {
    assert DigitValue('9') == 9 && DigitValue('1') == 1 && DigitValue('0') == 0;
    TimesRejectedIffNotAfter(DefaultForm);
  }

  /** The listing: one section per entry of `daysOfWeek`, in order, with that
      day's slots (none when the schedule has no entry for it). */
  function Sections(schedule: map<string, seq<ScheduleSlot>>): (r: seq<(string, seq<ScheduleSlot>)>)
    ensures |r| == |DaysOfWeek|
    ensures forall i :: 0 <= i < |r| ==> r[i].0 == DaysOfWeek[i]
    ensures forall i :: 0 <= i < |r| ==> r[i].1 == if DaysOfWeek[i] in schedule then schedule[DaysOfWeek[i]] else []
  {
    seq(|DaysOfWeek|, i requires 0 <= i < |DaysOfWeek| =>
      (DaysOfWeek[i], if DaysOfWeek[i] in schedule then schedule[DaysOfWeek[i]] else []))
  }

  /** Only Monday to Saturday are ever listed: slots stored under any other key
      (a Sunday, say) never appear. */
  lemma OnlyWeekdaysListed(schedule: map<string, seq<ScheduleSlot>>, i: nat)
    requires i < |Sections(schedule)|
    ensures Sections(schedule)[i].0 != "sunday"
    ensures Sections(schedule)[i].0 in {"monday", "tuesday", "wednesday", "thursday", "friday", "saturday"}
  {
    assert "sunday"[1] != "monday"[1] && "sunday"[0] != "tuesday"[0] && "sunday"[0] != "wednesday"[0];
    assert "sunday"[0] != "thursday"[0] && "sunday"[0] != "friday"[0] && "sunday"[1] != "saturday"[1];
  }

  class DoctorSchedulePage {
    var schedule: map<string, seq<ScheduleSlot>>
    var loading: bool
    var showAddForm: bool
    var editingSlot: Option<ScheduleSlot>
    var formData: SlotForm

    constructor ()
      ensures schedule == map[] && loading && !showAddForm && editingSlot == None && formData == DefaultForm
    {
      schedule := map[];
      loading := true;
      showAddForm := false;
      editingSlot := None;
      formData := DefaultForm;
    }

    /** The end of `fetchSchedule`. */
    method FinishFetch(data: Option<map<string, seq<ScheduleSlot>>>)
      modifies this
      ensures !loading
      ensures schedule == if data.Some? then data.value else old(schedule)
      ensures showAddForm == old(showAddForm) && editingSlot == old(editingSlot) && formData == old(formData)
    {
      if data.Some? {
        schedule := data.value;
      }
      loading := false;
    }

    /** `handleInputChange`. */
    method HandleInputChange(ev: InputEvent)
      modifies this
      ensures formData == ApplyInput(old(formData), ev)
      ensures schedule == old(schedule) && loading == old(loading)
      ensures showAddForm == old(showAddForm) && editingSlot == old(editingSlot)
    {
      formData := ApplyInput(formData, ev);
    }

    /** `resetForm`. */
    method ResetForm()
      modifies this
      ensures formData == DefaultForm
      ensures schedule == old(schedule) && loading == old(loading)
      ensures showAddForm == old(showAddForm) && editingSlot == old(editingSlot)
    {
      formData := DefaultForm;
    }

    /** `startEditing`: loads the slot into the form and closes the add form. */
    method StartEditing(slot: ScheduleSlot)
      modifies this
      ensures editingSlot == Some(slot) && formData == FormOf(slot) && !showAddForm
      ensures schedule == old(schedule) && loading == old(loading)
    {
      editingSlot := Some(slot);
      formData := FormOf(slot);
      showAddForm := false;
    }

    /** `cancelEditing`. */
    method CancelEditing()
      modifies this
      ensures editingSlot == None && formData == DefaultForm
      ensures showAddForm == old(showAddForm) && schedule == old(schedule) && loading == old(loading)
    {
      editingSlot := None;
      ResetForm();
    }

    /** The header button: flips the add form, drops any slot being edited and
        resets the form. */
    method ToggleAddForm()
      modifies this
      ensures showAddForm == !old(showAddForm) && editingSlot == None && formData == DefaultForm
      ensures schedule == old(schedule) && loading == old(loading)
    {
      showAddForm := !showAddForm;
      editingSlot := None;
      ResetForm();
    }

    /** `handleAddTimeSlot`, with `created` standing for whether the awaited
        `createTimeSlot` resolved. Returns whether the times were refused, the
        form handed to `createTimeSlot` (if it was called), and whether the
        schedule is fetched again. The refetch is not awaited and turns
        `loading` on before its first wait. */
    method HandleAddTimeSlot(created: bool) returns (refused: bool, sent: Option<SlotForm>, refetch: bool)
      modifies this
      ensures refused == TimesRejected(old(formData))
      ensures refused ==> sent == None && !refetch && formData == old(formData) && showAddForm == old(showAddForm)
      ensures !refused ==> sent == Some(old(formData))
      ensures !refused && created ==> !showAddForm && formData == DefaultForm && refetch
      ensures !refused && !created ==> showAddForm == old(showAddForm) && formData == old(formData) && !refetch
      ensures loading == (old(loading) || refetch)
      ensures editingSlot == old(editingSlot) && schedule == old(schedule)
    {
      refused, sent, refetch := TimesRejected(formData), None, false;
      if refused {
        return;
      }
      sent := Some(formData);
      if created {
        showAddForm := false;
        ResetForm();
        refetch := true;
        loading := true;
      }
    }

    /** `handleEditTimeSlot`; the form submits here only while a slot is being
        edited. Returns whether the times were refused, the id and form handed
        to `updateTimeSlot` (if it was called), and whether to refetch, which
        turns `loading` on at once. */
    method HandleEditTimeSlot(updated: bool) returns (refused: bool, sent: Option<(string, SlotForm)>, refetch: bool)
      requires editingSlot.Some?
      modifies this
      ensures refused == TimesRejected(old(formData))
      ensures refused ==> sent == None && !refetch && formData == old(formData) && editingSlot == old(editingSlot)
      ensures !refused ==> sent == Some((old(editingSlot).value.id, old(formData)))
      ensures !refused && updated ==> editingSlot == None && formData == DefaultForm && refetch
      ensures !refused && !updated ==> editingSlot == old(editingSlot) && formData == old(formData) && !refetch
      ensures loading == (old(loading) || refetch)
      ensures showAddForm == old(showAddForm) && schedule == old(schedule)
    {
      refused, sent, refetch := TimesRejected(formData), None, false;
      if refused {
        return;
      }
      sent := Some((editingSlot.value.id, formData));
      if updated {
        editingSlot := None;
        ResetForm();
        refetch := true;
        loading := true;
      }
    }
  }

  /** `handleDeleteTimeSlot`: `deleteTimeSlot` is called only after the dialog
      is confirmed, and a resolved call makes the schedule be fetched again. */
  method HandleDeleteTimeSlot(slotId: string, confirmed: bool, deleted: bool) returns (sent: Option<string>, refetch: bool)
    ensures sent == (if confirmed then Some(slotId) else None)
    ensures refetch <==> confirmed && deleted
  {
    sent, refetch := None, false;
    if !confirmed {
      return;
    }
    sent := Some(slotId);
    refetch := deleted;
  }
}
