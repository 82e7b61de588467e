/**
 * The administrator's appointment list (frontend/src/pages/admin/ManageAppointments.jsx):
 * the search over patient name, doctor name and status, the status actions
 * offered per row, and the `processingId` that disables one row's buttons
 * while its change is in flight.
 */
module ManageAppointments {
  import opened Base
  import opened Text
  import opened AppointmentStatus

  /** A row: the appointment's `_id`, `user?.name`, `doctor?.name` and `status`. */
  datatype AppointmentRow = AppointmentRow(id: string, patientName: Option<string>, doctorName: Option<string>, status: string)

  /** `field?.toLowerCase().includes(term)`: a missing field matches nothing. */
  predicate OptionalMatches(field: Option<string>, searchTerm: string) {
    field.Some? && MatchesTerm(field.value, searchTerm)
  }

  predicate SearchMatches(a: AppointmentRow, searchTerm: string) {
    OptionalMatches(a.patientName, searchTerm) || OptionalMatches(a.doctorName, searchTerm) || MatchesTerm(a.status, searchTerm)
  }

  /** `filteredAppointments`. */
  function FilteredAppointments(appointments: seq<AppointmentRow>, searchTerm: string): (r: seq<AppointmentRow>)
    ensures |r| <= |appointments|
    ensures forall a :: a in r <==> a in appointments && SearchMatches(a, searchTerm)
  {
    Filter(appointments, a => SearchMatches(a, searchTerm))
  }

  /** An empty search keeps every appointment, in order (the status is always
      present, and every string contains the empty string). */
  lemma EmptySearchKeepsAll(appointments: seq<AppointmentRow>)
    ensures FilteredAppointments(appointments, "") == appointments
  {
    forall i | 0 <= i < |appointments| ensures SearchMatches(appointments[i], "") {
      EmptyTermMatches(appointments[i].status);
    }
    FilterKeepsAll(appointments, a => SearchMatches(a, ""));
  }

  /** The search keeps the list's order: filtering two halves and joining them
      is filtering the whole. */
  lemma SearchKeepsOrder(xs: seq<AppointmentRow>, ys: seq<AppointmentRow>, searchTerm: string)
    ensures FilteredAppointments(xs + ys, searchTerm) == FilteredAppointments(xs, searchTerm) + FilteredAppointments(ys, searchTerm)
  {
    FilterAppend(xs, ys, a => SearchMatches(a, searchTerm));
  }

  class ManageAppointmentsPage {
    var appointments: seq<AppointmentRow>
    var filter: string
    var searchTerm: string
    var selectedDate: string
    var processingId: Option<string>

    constructor ()
      ensures appointments == [] && filter == "all" && searchTerm == "" && selectedDate == "" && processingId == None
    {
      appointments := [];
      filter := "all";
      searchTerm := "";
      selectedDate := "";
      processingId := None;
    }

    /** A status button. The fetch effect is keyed on `filter` and
        `selectedDate`, so it runs, with the returned query (status filter and
        date), only when the clicked value differs from the current one. */
    method SetFilter(value: string) returns (query: Option<(string, string)>)
      modifies this
      ensures filter == value
      ensures query.Some? <==> value != old(filter)
      ensures query.Some? ==> query.value == (value, selectedDate)
      ensures appointments == old(appointments) && searchTerm == old(searchTerm)
      ensures selectedDate == old(selectedDate) && processingId == old(processingId)
    {
      query := if value != filter then Some((value, selectedDate)) else None;
      filter := value;
    }

    /** The date input; likewise refetches only when the date changes. */
    method SetSelectedDate(value: string) returns (query: Option<(string, string)>)
      modifies this
      ensures selectedDate == value
      ensures query.Some? <==> value != old(selectedDate)
      ensures query.Some? ==> query.value == (filter, value)
      ensures appointments == old(appointments) && searchTerm == old(searchTerm)
      ensures filter == old(filter) && processingId == old(processingId)
    {
      query := if value != selectedDate then Some((filter, value)) else None;
      selectedDate := value;
    }

    /** The search box: narrows the shown rows without a fetch. */
    method SetSearchTerm(term: string)
      modifies this
      ensures searchTerm == term
      ensures appointments == old(appointments) && filter == old(filter)
      ensures selectedDate == old(selectedDate) && processingId == old(processingId)
    {
      searchTerm := term;
    }

    /** The end of `fetchAppointments`: a fetched list replaces the rows. */
    method FinishFetch(data: Option<seq<AppointmentRow>>)
      modifies this
      ensures appointments == if data.Some? then data.value else old(appointments)
      ensures filter == old(filter) && searchTerm == old(searchTerm)
      ensures selectedDate == old(selectedDate) && processingId == old(processingId)
    {
      if data.Some? {
        appointments := data.value;
      }
    }

    /** The first half of `handleStatusChange`: marks the row as processing and
        returns the id and status handed to `updateAppointmentStatus`. */
    method BeginStatusChange(appointmentId: string, action: Action) returns (request: (string, string))
      modifies this
      ensures processingId == Some(appointmentId)
      ensures request == (appointmentId, Target(action))
      ensures appointments == old(appointments) && filter == old(filter)
      ensures searchTerm == old(searchTerm) && selectedDate == old(selectedDate)
    {
      processingId := Some(appointmentId);
      request := (appointmentId, Target(action));
    }

    /** The second half: whatever the outcome, `processingId` goes back to
        null; a resolved call makes the list be fetched again. */
    method EndStatusChange(succeeded: bool) returns (refetch: bool)
      modifies this
      ensures processingId == None
      ensures refetch == succeeded
      ensures appointments == old(appointments) && filter == old(filter)
      ensures searchTerm == old(searchTerm) && selectedDate == old(selectedDate)
    {
      refetch := succeeded;
      processingId := None;
    }
  }
}
