/**
 * The administrator's appointment page (frontend/src/pages/admin/AppointmentDetails.jsx):
 * what it renders before and after loading, the status and payment-status
 * lines, `formatDate`'s empty case, and the status actions with the
 * `processing` flag.
 */
module AppointmentDetails {
  import opened Base
  import opened Text
  import opened AppointmentStatus
  import StatusBadge

  datatype Payment = Payment(status: string)

  /** The fetched appointment, as far as this page inspects it. */
  datatype AppointmentRecord = AppointmentRecord(status: string, date: Option<string>, payment: Option<Payment>)

  datatype DetailsView = LoadingView | NotFound | Shown(appointment: AppointmentRecord)

  /** Loading first, then "Appointment not found" for a missing appointment. */
  function View(loading: bool, appointment: Option<AppointmentRecord>): (v: DetailsView)
    ensures v == LoadingView <==> loading
    ensures v == NotFound <==> !loading && appointment.None?
    ensures v.Shown? <==> !loading && appointment.Some?
    ensures v.Shown? ==> v.appointment == appointment.value
  {
    if loading then LoadingView
    else if appointment.None? then NotFound
    else Shown(appointment.value)
  }

  /** `formatDate`: an empty or missing date string renders as `""`; any other
      goes through the locale formatter `localize`. */
  function FormatDate(dateString: Option<string>, localize: string -> string): (r: string)
    ensures dateString.None? || dateString.value == "" ==> r == ""
    ensures dateString.Some? && dateString.value != "" ==> r == localize(dateString.value)
  {
    if dateString.None? || dateString.value == "" then "" else localize(dateString.value)
  }

  /** The status line, `Capitalize(status)`, agrees with the badge for the
      four known statuses. */
  lemma StatusLabelMatchesBadge(status: string)
    requires status in {"pending", "confirmed", "completed", "cancelled"}
    ensures Capitalize(status) == StatusBadge.BadgeFor(status).text
  {
    StatusBadge.BadgeTextIsCapitalized(status);
  }

  datatype PaymentColour = PaymentGreen | PaymentYellow | PaymentRed

  /** Green for completed, yellow for pending, red for anything else. */
  function PaymentStatusColour(status: string): (c: PaymentColour)
    ensures c == PaymentGreen <==> status == "completed"
    ensures c == PaymentYellow <==> status == "pending"
    ensures c == PaymentRed <==> status != "completed" && status != "pending"
  {
    if status == "completed" then PaymentGreen
    else if status == "pending" then PaymentYellow
    else PaymentRed
  }

  /** The payment-status line, shown only when a payment exists. */
  function PaymentLine(payment: Option<Payment>): (line: Option<(string, PaymentColour)>)
    ensures line.Some? <==> payment.Some?
    ensures line.Some? ==> line.value == (Capitalize(payment.value.status), PaymentStatusColour(payment.value.status))
  {
    match payment
    case None => None
    case Some(p) => Some((Capitalize(p.status), PaymentStatusColour(p.status)))
  }

  /** The action buttons of the administrator's and the doctor's appointment
      pages: the detail captions, disabled while `processing`. */
  function DetailButtons(status: string, processing: bool): (bs: seq<ActionButton>)
    ensures |bs| == |Offered(status)|
    ensures forall i :: 0 <= i < |bs| ==> bs[i].action == Offered(status)[i] && (bs[i].disabled <==> processing)
  {
    Buttons(status, processing, false)
  }

  class AppointmentDetailsPage {
    var appointment: Option<AppointmentRecord>
    var loading: bool
    var processing: bool

    constructor ()
      ensures appointment == None && loading && !processing
    {
      appointment := None;
      loading := true;
      processing := false;
    }

    /** The end of `fetchAppointmentDetails`; a failed fetch navigates away
        and leaves the state as it was. */
    method FinishFetch(data: Option<AppointmentRecord>)
      modifies this
      ensures !loading && processing == old(processing)
      ensures appointment == if data.Some? then data else old(appointment)
    {
      if data.Some? {
        appointment := data;
      }
      loading := false;
    }

    /** The first half of `handleStatusChange`: sets `processing` and returns
        the status handed to `updateAppointmentStatus`. */
    method BeginStatusChange(action: Action) returns (newStatus: string)
      modifies this
      ensures processing && newStatus == Target(action)
      ensures appointment == old(appointment) && loading == old(loading)
    {
      processing := true;
      newStatus := Target(action);
    }

    /** The second half: `processing` is cleared whatever the outcome. A
        refetch is started without being awaited, and the fetch turns
        `loading` on before its first wait, so after a success the page shows
        the spinner until `FinishFetch`. */
    method EndStatusChange(succeeded: bool) returns (refetch: bool)
      modifies this
      ensures !processing && refetch == succeeded
      ensures loading == (old(loading) || refetch)
      ensures appointment == old(appointment)
    {
      processing := false;
      refetch := succeeded;
      if refetch {
        loading := true;
      }
    }
  }
}
