/**
 * The slot picker of the booking page (frontend/src/components/TimeSlotPicker.jsx):
 * one button per offered slot, in the order given, disabled and labelled by
 * the number of spots left, and the selection it records and forwards.
 */
module TimeSlotPicker {
  import opened Base
  import opened Text
  import opened ClockTime

  /** An offered slot: its `_id`, its `"HH:mm"` bounds and its free places. */
  datatype Slot = Slot(id: string, startTime: string, endTime: string, availableSpots: int)

  /** Both bounds of the slot are `"HH:mm"` times. */
  predicate HasClockTimes(s: Slot) {
    IsHhMm(s.startTime) && IsHhMm(s.endTime)
  }

  /** What a slot's button shows and does: the times line, the spots line,
      and its state. */
  datatype SlotButton = SlotButton(id: string, times: string, disabled: bool, caption: string, selected: bool)

  /** The times line: `formatTime(startTime) - formatTime(endTime)`. */
  function TimesText(s: Slot): (text: string)
    requires HasClockTimes(s)
    ensures var n := |FormatTime(s.startTime)|;
            && n + 3 <= |text|
            && text[n..n + 3] == " - "
            && To24(text[..n]) == Some(s.startTime)
            && To24(text[n + 3..]) == Some(s.endTime)
  {
    var a, b := FormatTime(s.startTime), FormatTime(s.endTime);
    var text := a + " - " + b;
    assert text[..|a|] == a && text[|a| + 3..] == b;
    text
  }

  /** The picker renders either the "No available time slots" message or the
      grid of buttons. */
  datatype PickerView = NoSlots | SlotGrid(buttons: seq<SlotButton>)

  const FullyBooked := "Fully booked"

  /** `slot.availableSpots <= 0`. */
  predicate SlotDisabled(s: Slot) {
    s.availableSpots <= 0
  }

  /** The line under the times: the count with "spot" or "spots", then "left",
      or "Fully booked" when no place is left. */
  function SpotsLabel(n: int): (text: string)
    ensures n == 1 ==> text == "1 spot left"
    ensures n > 1 ==> text == NatToString(n) + " spots left"
    ensures n <= 0 ==> text == FullyBooked
    ensures n > 0 ==> text[|text| - 1] == 't'
  {
    if n > 0 then
      OneSpotText();
      NatToString(n) + " " + (if n == 1 then "spot" else "spots") + " left"
    else FullyBooked
  }

  lemma OneSpotText()
    ensures NatToString(1) + " " + "spot" + " left" == "1 spot left"
  {
    assert NatToString(1) == [DigitChar(1)] == "1";
  }

  /** A button is disabled exactly when its label reads "Fully booked". */
  lemma DisabledIffFullyBooked(s: Slot)
    ensures SlotDisabled(s) <==> SpotsLabel(s.availableSpots) == FullyBooked
  {
    if !SlotDisabled(s) {
      var text := SpotsLabel(s.availableSpots);
      assert text[|text| - 1] != FullyBooked[|FullyBooked| - 1];
    }
  }

  function ButtonFor(s: Slot, selectedSlotId: Option<string>): (b: SlotButton)
    requires HasClockTimes(s)
    ensures b.id == s.id && b.caption == SpotsLabel(s.availableSpots)
    ensures b.times == TimesText(s)
    ensures b.disabled <==> s.availableSpots <= 0
    ensures b.selected <==> selectedSlotId == Some(s.id)
  {
    SlotButton(s.id, TimesText(s), SlotDisabled(s), SpotsLabel(s.availableSpots), selectedSlotId == Some(s.id))
  }

  /** What the picker renders for `availableSlots` (absent when `null`); the
      offered slots carry `"HH:mm"` bounds. */
  function Render(availableSlots: Option<seq<Slot>>, selectedSlotId: Option<string>): (v: PickerView)
    requires availableSlots.Some? ==> forall k :: 0 <= k < |availableSlots.value| ==> HasClockTimes(availableSlots.value[k])
    ensures v.NoSlots? <==> availableSlots.None? || |availableSlots.value| == 0
    ensures v.SlotGrid? ==> |v.buttons| == |availableSlots.value|
    ensures v.SlotGrid? ==> forall i :: 0 <= i < |v.buttons| ==> v.buttons[i] == ButtonFor(availableSlots.value[i], selectedSlotId)
  {
    match availableSlots
    case None => NoSlots
    case Some(slots) =>
      if |slots| == 0 then NoSlots
      else SlotGrid(seq(|slots|, i requires 0 <= i < |slots| => ButtonFor(slots[i], selectedSlotId)))
  }

  class Picker {
    var selectedSlotId: Option<string>

    constructor ()
      ensures selectedSlotId == None
    {
      selectedSlotId := None;
    }

    /** `handleSelectSlot`: records the id and returns the id forwarded to
        `onSelectTimeSlot`. */
    method HandleSelectSlot(slotId: string) returns (forwarded: string)
      modifies this
      ensures selectedSlotId == Some(slotId) && forwarded == slotId
    {
      selectedSlotId := Some(slotId);
      forwarded := slotId;
    }
  }

  /** After a slot is selected, the highlighted buttons are exactly those
      carrying its id. */
  lemma SelectionHighlighted(slots: seq<Slot>, slotId: string, i: nat)
    requires forall k :: 0 <= k < |slots| ==> HasClockTimes(slots[k])
    requires i < |slots|
    ensures Render(Some(slots), Some(slotId)).buttons[i].selected <==> slots[i].id == slotId
  {
  }
}
