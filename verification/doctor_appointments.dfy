/**
 * The doctor's appointment list (frontend/src/pages/doctor/DoctorAppointments.jsx):
 * the three tabs, the status filter each tab asks the backend for, the
 * empty-state message, and the row actions with `processingId`.
 */
module DoctorAppointments {
  import opened Base
  import opened Text
  import opened AppointmentStatus

  /** The tab bar, in order. */
  const Tabs: seq<string> := ["upcoming", "completed", "cancelled"]

  /** The `status` query of `fetchAppointments` for the active tab. */
  function TabStatusFilter(activeTab: string): (status: string)
    ensures activeTab == "upcoming" ==> status == "pending,confirmed"
    ensures activeTab == "completed" ==> status == "completed"
    ensures activeTab == "cancelled" ==> status == "cancelled"
    ensures activeTab !in Tabs ==> status == ""
  {
    if activeTab == "upcoming" then "pending,confirmed"
    else if activeTab == "completed" then "completed"
    else if activeTab == "cancelled" then "cancelled"
    else ""
  }

  /** The upcoming tab asks for exactly the statuses that are still offered an
      action: pending and confirmed. */
  lemma UpcomingTabIsOpenStatuses(status: string)
    ensures Split(TabStatusFilter("upcoming"), ',') == ["pending", "confirmed"]
    ensures status in Split(TabStatusFilter("upcoming"), ',') <==> |Offered(status)| > 0
  {
    assert "pending,confirmed" == "pending" + [','] + "confirmed";
    SplitOnce("pending", "confirmed", ',');
  }

  /** The closed tabs ask for one status each, and no action is offered on it. */
  lemma ClosedTabsHaveNoActions(activeTab: string)
    requires activeTab == "completed" || activeTab == "cancelled"
    ensures TabStatusFilter(activeTab) == activeTab
    ensures Offered(TabStatusFilter(activeTab)) == []
  {
  }

  /** The message under "No appointments found", chosen by the active tab;
      any tab other than upcoming and completed gets the cancelled text. */
  function EmptyMessage(activeTab: string): (text: string)
    ensures activeTab == "upcoming" ==> text == "You don't have any upcoming appointments for the selected date."
    ensures activeTab == "completed" ==> text == "You don't have any completed appointments for the selected date."
    ensures activeTab != "upcoming" && activeTab != "completed" ==>
              text == "You don't have any cancelled appointments for the selected date."
  {
    if activeTab == "upcoming" then "You don't have any upcoming appointments for the selected date."
    else if activeTab == "completed" then "You don't have any completed appointments for the selected date."
    else "You don't have any cancelled appointments for the selected date."
  }

  /** A tab's caption is `Capitalize(tab)`. A tab key without capitals is
      given back by lower-casing its caption, so different keys get different
      captions. */
  lemma TabLabelLowersBack(tab: string)
    requires ToLower(tab) == tab
    ensures ToLower(Capitalize(tab)) == tab
  {
    var t := Capitalize(tab);
    forall i | 0 <= i < |tab|
      ensures LowerChar(t[i]) == tab[i]
    {
      assert LowerChar(tab[i]) == tab[i];
      if i > 0 {
        assert t[i] == t[1..][i - 1] == tab[1..][i - 1];
      }
    }
  }

  class DoctorAppointmentsPage {
    var activeTab: string
    var processingId: Option<string>

    constructor ()
      ensures activeTab == "upcoming" && processingId == None
    {
      activeTab := "upcoming";
      processingId := None;
    }

    /** A tab click. The fetch effect is keyed on `activeTab` (and the date),
        so it runs, with the returned status filter, only when another tab is
        clicked. */
    method SelectTab(tab: string) returns (statusFilter: Option<string>)
      modifies this
      ensures activeTab == tab
      ensures statusFilter.Some? <==> tab != old(activeTab)
      ensures statusFilter.Some? ==> statusFilter.value == TabStatusFilter(tab)
      ensures processingId == old(processingId)
    {
      statusFilter := if tab != activeTab then Some(TabStatusFilter(tab)) else None;
      activeTab := tab;
    }

    /** The first half of `handleStatusChange`. */
    method BeginStatusChange(appointmentId: string, action: Action) returns (request: (string, string))
      modifies this
      ensures processingId == Some(appointmentId) && request == (appointmentId, Target(action))
      ensures activeTab == old(activeTab)
    {
      processingId := Some(appointmentId);
      request := (appointmentId, Target(action));
    }

    /** The second half: `processingId` goes back to null whatever the outcome. */
    method EndStatusChange(succeeded: bool) returns (refetch: bool)
      modifies this
      ensures processingId == None && refetch == succeeded
      ensures activeTab == old(activeTab)
    {
      processingId := None;
      refetch := succeeded;
    }
  }
}
