/**
 * The administrator's doctor list (frontend/src/pages/admin/ManageDoctors.jsx):
 * the verification filter (which a `?filter=` query can preset), the search
 * over name, e-mail and specialization, and the per-row actions.
 */
module ManageDoctors {
  import opened Base
  import opened Text

  /** A listed doctor, as far as the list inspects it. */
  datatype DoctorRow = DoctorRow(id: string, name: string, email: string, specialization: string, isVerified: bool)

  /** The row actions. */
  datatype DoctorAction = Verify | Unverify | Delete

  /** `matchesFilter`: "all" keeps everyone, "verified" and "pending" split on
      `isVerified`, and any other value (from the query string) keeps no one. */
  predicate MatchesFilter(d: DoctorRow, filter: string) {
    filter == "all" || (filter == "verified" && d.isVerified) || (filter == "pending" && !d.isVerified)
  }

  /** `matchesSearch`: the term occurs, ignoring case, in the name, the e-mail
      or the specialization. */
  predicate MatchesSearch(d: DoctorRow, searchTerm: string) {
    MatchesTerm(d.name, searchTerm) || MatchesTerm(d.email, searchTerm) || MatchesTerm(d.specialization, searchTerm)
  }

  /** `filteredDoctors`: a doctor is listed exactly when both tests pass. */
  function FilteredDoctors(doctors: seq<DoctorRow>, filter: string, searchTerm: string): (r: seq<DoctorRow>)
    ensures |r| <= |doctors|
    ensures forall d :: d in r <==> d in doctors && MatchesFilter(d, filter) && MatchesSearch(d, searchTerm)
  {
    Filter(doctors, d => MatchesFilter(d, filter) && MatchesSearch(d, searchTerm))
  }

  /** The verified and the pending views split the list: every doctor that
      matches the search is in exactly one of them. */
  lemma VerifiedAndPendingPartition(doctors: seq<DoctorRow>, searchTerm: string, d: DoctorRow)
    requires d in doctors && MatchesSearch(d, searchTerm)
    ensures d in FilteredDoctors(doctors, "verified", searchTerm) <==> d !in FilteredDoctors(doctors, "pending", searchTerm)
    ensures d in FilteredDoctors(doctors, "all", searchTerm)
  {
  }

  /** A filter value other than the three buttons' lists nobody. */
  lemma UnknownFilterListsNone(doctors: seq<DoctorRow>, filter: string, searchTerm: string)
    requires filter != "all" && filter != "verified" && filter != "pending"
    ensures FilteredDoctors(doctors, filter, searchTerm) == []
  {
  }

  /** With the "all" filter and an empty search every doctor is listed, in order. */
  lemma AllWithEmptySearchKeepsAll(doctors: seq<DoctorRow>)
    ensures FilteredDoctors(doctors, "all", "") == doctors
  {
    forall i | 0 <= i < |doctors| ensures MatchesFilter(doctors[i], "all") && MatchesSearch(doctors[i], "") {
      EmptyTermMatches(doctors[i].name);
    }
    FilterKeepsAll(doctors, d => MatchesFilter(d, "all") && MatchesSearch(d, ""));
  }

  /** The actions of a row: Verify for an unverified doctor, Unverify for a
      verified one, then Delete for everyone. */
  function RowActions(d: DoctorRow): (acts: seq<DoctorAction>)
    ensures Verify in acts <==> !d.isVerified
    ensures Unverify in acts <==> d.isVerified
    ensures |acts| == 2 && acts[1] == Delete
  {
    (if d.isVerified then [Unverify] else [Verify]) + [Delete]
  }

  /** The badge of the status column. */
  function StatusText(d: DoctorRow): (text: string)
    ensures text == "Verified" <==> d.isVerified
    ensures text == "Pending" <==> !d.isVerified
  {
    if d.isVerified then "Verified" else "Pending"
  }

  /** The service call a row action makes, if any: Delete asks first, and a
      declined dialog calls nothing. */
  function ActionCall(action: DoctorAction, confirmed: bool): (call: Option<DoctorAction>)
    ensures call.Some? ==> call.value == action
    ensures call.None? <==> action == Delete && !confirmed
  {
    if action == Delete && !confirmed then None else Some(action)
  }

  class ManageDoctorsPage {
    var doctors: seq<DoctorRow>
    var filter: string
    var searchTerm: string

    constructor ()
      ensures doctors == [] && filter == "all" && searchTerm == ""
    {
      doctors := [];
      filter := "all";
      searchTerm := "";
    }

    /** The effect on `location.search`: a non-empty `filter` parameter
        replaces the filter; an absent or empty one leaves it. */
    method ApplyQuery(filterParam: Option<string>)
      modifies this
      ensures filter == if filterParam.Some? && filterParam.value != "" then filterParam.value else old(filter)
      ensures doctors == old(doctors) && searchTerm == old(searchTerm)
    {
      if filterParam.Some? && filterParam.value != "" {
        filter := filterParam.value;
      }
    }

    /** A filter button. */
    method SetFilter(value: string)
      modifies this
      ensures filter == value
      ensures doctors == old(doctors) && searchTerm == old(searchTerm)
    {
      filter := value;
    }

    /** The search box. */
    method SetSearchTerm(term: string)
      modifies this
      ensures searchTerm == term
      ensures doctors == old(doctors) && filter == old(filter)
    {
      searchTerm := term;
    }

    /** The end of `fetchDoctors`: a fetched list replaces the doctors. */
    method FinishFetch(data: Option<seq<DoctorRow>>)
      modifies this
      ensures doctors == if data.Some? then data.value else old(doctors)
      ensures filter == old(filter) && searchTerm == old(searchTerm)
    {
      if data.Some? {
        doctors := data.value;
      }
    }
  }
}
