/**
 * The patient's appointment page (frontend/src/pages/UserAppointmentDetails.jsx):
 * the `canCancel` and `needsPayment` predicates, the buttons they gate, and
 * the confirm-gated cancellation.
 */
module UserAppointmentDetails {
  import opened Base
  import opened AppointmentStatus

  /** `canCancel`: an appointment is loaded and it is pending or confirmed. */
  predicate CanCancel(appointmentStatus: Option<string>) {
    appointmentStatus.Some? && (appointmentStatus.value == "pending" || appointmentStatus.value == "confirmed")
  }

  /** `needsPayment`: an appointment is loaded and it is pending. */
  predicate NeedsPayment(appointmentStatus: Option<string>) {
    appointmentStatus.Some? && appointmentStatus.value == "pending"
  }

  datatype PatientAction = ProceedToPayment | CancelAppointment

  /** The buttons at the foot of the page, in order. */
  function PatientButtons(appointmentStatus: Option<string>): (bs: seq<PatientAction>)
    ensures ProceedToPayment in bs <==> NeedsPayment(appointmentStatus)
    ensures CancelAppointment in bs <==> CanCancel(appointmentStatus)
  {
    (if NeedsPayment(appointmentStatus) then [ProceedToPayment] else [])
    + (if CanCancel(appointmentStatus) then [CancelAppointment] else [])
  }

  /** A payment is asked for only of an appointment that can still be
      cancelled; the patient may cancel exactly what the staff screens still
      offer actions for. */
  lemma PaymentImpliesCancel(appointmentStatus: Option<string>)
    ensures NeedsPayment(appointmentStatus) ==> CanCancel(appointmentStatus)
    ensures appointmentStatus.Some? ==> (CanCancel(appointmentStatus) <==> |Offered(appointmentStatus.value)| > 0)
  {
  }

  /** A completed or cancelled appointment shows neither button. */
  lemma ClosedShowsNoButtons(status: string)
    requires status == "completed" || status == "cancelled"
    ensures PatientButtons(Some(status)) == []
  {
  }

  /** `handleCancelAppointment`, with `confirmed` the answer to the dialog and
      `cancelled` whether `cancelAppointment` resolved: the call is made only
      after confirmation, and a resolved call makes the page reload. */
  method HandleCancelAppointment(confirmed: bool, cancelled: bool) returns (called: bool, refetch: bool)
    ensures called <==> confirmed
    ensures refetch <==> confirmed && cancelled
  {
    called, refetch := false, false;
    if !confirmed {
      return;
    }
    called := true;
    refetch := cancelled;
  }
}
