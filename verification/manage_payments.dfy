/**
 * The administrator's payment list (frontend/src/pages/admin/ManagePayments.jsx):
 * the search over patient, doctor, status and gateway payment id, the status
 * badge, and the refund action gated on completed payments.
 */
module ManagePayments {
  import opened Base
  import opened Text

  /** A listed payment: `_id`, `user?.name`, `doctor?.name`, `status` and
      `razorpayPaymentId`. */
  datatype PaymentRow = PaymentRow(id: string, userName: Option<string>, doctorName: Option<string>,
                                   status: string, razorpayPaymentId: Option<string>)

  datatype BadgeColour = Green | Yellow | Red | Purple

  /** `x?.toLowerCase().includes(term)`: a missing field matches nothing. */
  predicate OptionalMatches(field: Option<string>, searchTerm: string) {
    field.Some? && MatchesTerm(field.value, searchTerm)
  }

  predicate SearchMatches(p: PaymentRow, searchTerm: string) {
    || OptionalMatches(p.userName, searchTerm)
    || OptionalMatches(p.doctorName, searchTerm)
    || MatchesTerm(p.status, searchTerm)
    || OptionalMatches(p.razorpayPaymentId, searchTerm)
  }

  /** `filteredPayments`. */
  function FilteredPayments(payments: seq<PaymentRow>, searchTerm: string): (r: seq<PaymentRow>)
    ensures |r| <= |payments|
    ensures forall p :: p in r <==> p in payments && SearchMatches(p, searchTerm)
  {
    Filter(payments, p => SearchMatches(p, searchTerm))
  }

  /** An empty search keeps every payment, in order. */
  lemma EmptySearchKeepsAll(payments: seq<PaymentRow>)
    ensures FilteredPayments(payments, "") == payments
  {
    forall i | 0 <= i < |payments| ensures SearchMatches(payments[i], "") {
      EmptyTermMatches(payments[i].status);
    }
    FilterKeepsAll(payments, p => SearchMatches(p, ""));
  }

  /** Searching for a payment's gateway id finds it. */
  lemma GatewayIdFindsPayment(payments: seq<PaymentRow>, p: PaymentRow)
    requires p in payments && p.razorpayPaymentId.Some?
    ensures p in FilteredPayments(payments, p.razorpayPaymentId.value)
  {
    var id := p.razorpayPaymentId.value;
    assert OccursAt(ToLower(id), ToLower(id), 0);
  }

  /** The status badge: green for completed, yellow for pending, red for
      failed, purple for anything else (a refund). */
  function StatusColour(status: string): (c: BadgeColour)
    ensures c == Green <==> status == "completed"
    ensures c == Yellow <==> status == "pending"
    ensures c == Red <==> status == "failed"
    ensures c == Purple <==> status != "completed" && status != "pending" && status != "failed"
  {
    if status == "completed" then Green
    else if status == "pending" then Yellow
    else if status == "failed" then Red
    else Purple
  }

  /** The payment id column: the gateway id, or "N/A" when it is missing or
      empty. */
  function PaymentIdText(razorpayPaymentId: Option<string>): (text: string)
    ensures razorpayPaymentId.Some? && razorpayPaymentId.value != "" ==> text == razorpayPaymentId.value
    ensures razorpayPaymentId.None? || razorpayPaymentId.value == "" ==> text == "N/A"
  {
    if razorpayPaymentId.Some? && razorpayPaymentId.value != "" then razorpayPaymentId.value else "N/A"
  }

  /** The refund button of a row: shown only for a completed payment, and
      disabled, reading "Processing...", while that payment is being refunded. */
  datatype RefundButton = RefundButton(disabled: bool, caption: string)

  function RefundButtonFor(p: PaymentRow, processingId: Option<string>): (b: Option<RefundButton>)
    ensures b.Some? <==> p.status == "completed"
    ensures b.Some? ==> (b.value.disabled <==> processingId == Some(p.id))
    ensures b.Some? ==> (b.value.caption == "Processing..." <==> processingId == Some(p.id))
  {
    if p.status != "completed" then None
    else if processingId == Some(p.id) then Some(RefundButton(true, "Processing..."))
    else Some(RefundButton(false, "Refund"))
  }

  /** Only a completed payment can be refunded from the list, so a refunded or
      failed payment can never be refunded again from here. */
  lemma RefundOnlyCompleted(p: PaymentRow, processingId: Option<string>)
    requires p.status != "completed"
    ensures RefundButtonFor(p, processingId).None?
    ensures StatusColour(p.status) != Green
  {
  }

  class ManagePaymentsPage {
    var payments: seq<PaymentRow>
    var filter: string
    var searchTerm: string
    var selectedDate: string
    var processingId: Option<string>

    constructor ()
      ensures payments == [] && filter == "all" && searchTerm == "" && selectedDate == "" && processingId == None
    {
      payments := [];
      filter := "all";
      searchTerm := "";
      selectedDate := "";
      processingId := None;
    }

    /** A status button. The fetch effect is keyed on `filter` and
        `selectedDate`, so it runs, with the returned query (status filter and
        date), only when the clicked value differs from the current one. */
    method SetFilter(value: string) returns (query: Option<(string, string)>)
      modifies this
      ensures filter == value
      ensures query.Some? <==> value != old(filter)
      ensures query.Some? ==> query.value == (value, selectedDate)
      ensures payments == old(payments) && searchTerm == old(searchTerm)
      ensures selectedDate == old(selectedDate) && processingId == old(processingId)
    {
      query := if value != filter then Some((value, selectedDate)) else None;
      filter := value;
    }

    /** The date input; likewise refetches only when the date changes. */
    method SetSelectedDate(value: string) returns (query: Option<(string, string)>)
      modifies this
      ensures selectedDate == value
      ensures query.Some? <==> value != old(selectedDate)
      ensures query.Some? ==> query.value == (filter, value)
      ensures payments == old(payments) && searchTerm == old(searchTerm)
      ensures filter == old(filter) && processingId == old(processingId)
    {
      query := if value != selectedDate then Some((filter, value)) else None;
      selectedDate := value;
    }

    method SetSearchTerm(term: string)
      modifies this
      ensures searchTerm == term
      ensures payments == old(payments) && filter == old(filter)
      ensures selectedDate == old(selectedDate) && processingId == old(processingId)
    {
      searchTerm := term;
    }

    /** The end of `fetchPayments`: a fetched list replaces the payments. */
    method FinishFetch(data: Option<seq<PaymentRow>>)
      modifies this
      ensures payments == if data.Some? then data.value else old(payments)
      ensures filter == old(filter) && searchTerm == old(searchTerm)
      ensures selectedDate == old(selectedDate) && processingId == old(processingId)
    {
      if data.Some? {
        payments := data.value;
      }
    }

    /** The first half of `handleRefund`: a declined dialog does nothing;
        otherwise the payment is marked as processing and its id is the one
        handed to `refundPayment`. */
    method BeginRefund(paymentId: string, confirmed: bool) returns (sent: Option<string>)
      modifies this
      ensures sent == if confirmed then Some(paymentId) else None
      ensures processingId == if confirmed then Some(paymentId) else old(processingId)
      ensures payments == old(payments) && filter == old(filter)
      ensures searchTerm == old(searchTerm) && selectedDate == old(selectedDate)
    {
      sent := None;
      if !confirmed {
        return;
      }
      processingId := Some(paymentId);
      sent := Some(paymentId);
    }

    /** The second half: `processingId` is cleared whatever the outcome, and a
        successful refund refetches. */
    method EndRefund(succeeded: bool) returns (refetch: bool)
      modifies this
      ensures processingId == None && refetch == succeeded
      ensures payments == old(payments) && filter == old(filter)
      ensures searchTerm == old(searchTerm) && selectedDate == old(selectedDate)
    {
      processingId := None;
      refetch := succeeded;
    }
  }
}
