/**
 * The appointment status machine as the screens encode it: which status
 * actions a screen offers for an appointment's status, the status each action
 * asks for, and the buttons that carry them. The administrator's and the
 * doctor's list and detail screens (frontend/src/pages/admin/ManageAppointments.jsx,
 * frontend/src/pages/admin/AppointmentDetails.jsx,
 * frontend/src/pages/doctor/DoctorAppointments.jsx,
 * frontend/src/pages/doctor/DoctorAppointmentDetails.jsx) all offer the same
 * three actions under the same conditions; the backend's own transition
 * rules are not part of this model.
 */
module AppointmentStatus {
  import opened Base

  datatype Action = Confirm | Complete | Cancel

  /** The `newStatus` each action hands to `updateAppointmentStatus`. */
  function Target(a: Action): (status: string)
    ensures a == Confirm ==> status == "confirmed"
    ensures a == Complete ==> status == "completed"
    ensures a == Cancel ==> status == "cancelled"
  {
    match a
    case Confirm => "confirmed"
    case Complete => "completed"
    case Cancel => "cancelled"
  }

  /** Pending and confirmed appointments are the ones still open. */
  predicate IsOpen(status: string) {
    status == "pending" || status == "confirmed"
  }

  /** The actions offered for a status, in the order the buttons appear:
      Confirm for pending, Complete for confirmed, Cancel for either. */
  function Offered(status: string): (acts: seq<Action>)
    ensures Confirm in acts <==> status == "pending"
    ensures Complete in acts <==> status == "confirmed"
    ensures Cancel in acts <==> IsOpen(status)
    ensures |acts| > 0 <==> IsOpen(status)
    ensures |acts| > 0 ==> acts[|acts| - 1] == Cancel
  {
    (if status == "pending" then [Confirm] else [])
    + (if status == "confirmed" then [Complete] else [])
    + (if IsOpen(status) then [Cancel] else [])
  }

  /** A status change some screen offers from `from` to `to`. */
  predicate Transition(from: string, to: string) {
    exists a :: a in Offered(from) && Target(a) == to
  }

  /** The offered changes are exactly pending to confirmed, confirmed to
      completed, and pending or confirmed to cancelled. */
  lemma TransitionsOffered(from: string, to: string)
    ensures Transition(from, to) <==>
              || (from == "pending" && to == "confirmed")
              || (from == "confirmed" && to == "completed")
              || (IsOpen(from) && to == "cancelled")
  {
    if from == "pending" && to == "confirmed" {
      assert Confirm in Offered(from);
    } else if from == "confirmed" && to == "completed" {
      assert Complete in Offered(from);
    } else if IsOpen(from) && to == "cancelled" {
      assert Cancel in Offered(from);
    }
  }

  /** Completed and cancelled appointments are offered nothing: nothing leads
      out of them. */
  lemma ClosedIsTerminal(to: string)
    ensures Offered("completed") == [] && Offered("cancelled") == []
    ensures !Transition("completed", to) && !Transition("cancelled", to)
  {
  }

  /** How far along an appointment is: 0 pending, 1 confirmed, 2 closed. */
  function Stage(status: string): nat {
    if status == "pending" then 0 else if status == "confirmed" then 1 else 2
  }

  /** Every offered change moves strictly forward, so no status comes back. */
  lemma TransitionsMoveForward(from: string, to: string)
    requires Transition(from, to)
    ensures Stage(from) < Stage(to)
  {
    TransitionsOffered(from, to);
  }

  /** An action button: the action, its caption and whether it is disabled. */
  datatype ActionButton = ActionButton(action: Action, caption: string, disabled: bool)

  const Processing := "Processing..."

  /** The idle caption: the list screens use one word, the detail screens a
      phrase. */
  function ActionCaption(a: Action, compact: bool): (caption: string)
    ensures caption != Processing
  {
    match a
    case Confirm => if compact then "Confirm" else "Confirm Appointment"
    case Complete => if compact then "Complete" else "Mark as Completed"
    case Cancel => if compact then "Cancel" else "Cancel Appointment"
  }

  /** The buttons shown for a status. While a change is in flight for this
      appointment (`busy`) every button is disabled and reads
      "Processing...". */
  function Buttons(status: string, busy: bool, compact: bool): (bs: seq<ActionButton>)
    ensures |bs| == |Offered(status)|
    ensures forall i :: 0 <= i < |bs| ==> bs[i].action == Offered(status)[i]
    ensures forall i :: 0 <= i < |bs| ==> (bs[i].disabled <==> busy)
    ensures forall i :: 0 <= i < |bs| ==> (bs[i].caption == Processing <==> busy)
  {
    var acts := Offered(status);
    seq(|acts|, i requires 0 <= i < |acts| =>
      ActionButton(acts[i], if busy then Processing else ActionCaption(acts[i], compact), busy))
  }

  /** A list row's buttons (the administrator's and the doctor's lists): the
      one-word captions, disabled exactly while `processingId` is the row's
      id. */
  function RowButtons(status: string, id: string, processingId: Option<string>): (bs: seq<ActionButton>)
    ensures |bs| == |Offered(status)|
    ensures forall i :: 0 <= i < |bs| ==> bs[i].action == Offered(status)[i]
    ensures forall i :: 0 <= i < |bs| ==> (bs[i].disabled <==> processingId == Some(id))
  {
    Buttons(status, processingId == Some(id), true)
  }

  /** While one row's change is in flight only that row's buttons are
      disabled, and once `processingId` is back to null none are. */
  lemma ProcessingDisablesOneRow(status: string, id: string, otherId: string, i: nat)
    requires id != otherId && i < |Offered(status)|
    ensures RowButtons(status, id, Some(id))[i].disabled
    ensures !RowButtons(status, id, Some(otherId))[i].disabled
    ensures !RowButtons(status, id, None)[i].disabled
  {
  }
}
