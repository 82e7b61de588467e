/**
 * The public doctor search (frontend/src/pages/FindDoctors.jsx): a free-text
 * search over name and specialization and a specialization drop-down.
 */
module FindDoctors {
  import opened Base
  import opened Text

  datatype DoctorCard = DoctorCard(id: string, name: string, specialization: string)

  /** `matchesSearch`. */
  predicate MatchesSearch(d: DoctorCard, searchTerm: string) {
    MatchesTerm(d.name, searchTerm) || MatchesTerm(d.specialization, searchTerm)
  }

  /** `matchesSpecialization`: no choice keeps everyone; otherwise the
      specializations must be equal ignoring case. */
  predicate MatchesSpecialization(d: DoctorCard, specialization: string) {
    specialization == "" || ToLower(d.specialization) == ToLower(specialization)
  }

  /** `filteredDoctors`. */
  function FilteredDoctors(doctors: seq<DoctorCard>, searchTerm: string, specialization: string): (r: seq<DoctorCard>)
    ensures |r| <= |doctors|
    ensures forall d :: d in r <==> d in doctors && MatchesSearch(d, searchTerm) && MatchesSpecialization(d, specialization)
  {
    Filter(doctors, d => MatchesSearch(d, searchTerm) && MatchesSpecialization(d, specialization))
  }

  /** With no search and no specialization every doctor is shown, in order. */
  lemma EmptyCriteriaKeepAll(doctors: seq<DoctorCard>)
    ensures FilteredDoctors(doctors, "", "") == doctors
  {
    forall i | 0 <= i < |doctors| ensures MatchesSearch(doctors[i], "") && MatchesSpecialization(doctors[i], "") {
      EmptyTermMatches(doctors[i].name);
    }
    FilterKeepsAll(doctors, d => MatchesSearch(d, "") && MatchesSpecialization(d, ""));
  }

  /** The filter keeps the list's order. */
  lemma FilterKeepsOrder(xs: seq<DoctorCard>, ys: seq<DoctorCard>, searchTerm: string, specialization: string)
    ensures FilteredDoctors(xs + ys, searchTerm, specialization)
            == FilteredDoctors(xs, searchTerm, specialization) + FilteredDoctors(ys, searchTerm, specialization)
  {
    FilterAppend(xs, ys, d => MatchesSearch(d, searchTerm) && MatchesSpecialization(d, specialization));
  }

  /** Choosing a specialization in the drop-down also satisfies the text
      search for that name: a doctor whose specialization equals it ignoring
      case matches the search term it would give. */
  lemma ChosenSpecializationMatchesSearch(d: DoctorCard, specialization: string)
    requires specialization != "" && MatchesSpecialization(d, specialization)
    ensures MatchesSearch(d, specialization)
  {
    assert OccursAt(ToLower(d.specialization), ToLower(specialization), 0);
  }

  /** A choice that differs from a doctor's specialization only in letter
      case still keeps that doctor. */
  lemma SpecializationIgnoresCase(d: DoctorCard, specialization: string)
    requires |specialization| == |d.specialization| && specialization != ""
    requires forall i :: 0 <= i < |specialization| ==> LowerChar(specialization[i]) == LowerChar(d.specialization[i])
    ensures MatchesSpecialization(d, specialization)
  {
    assert ToLower(d.specialization) == ToLower(specialization);
  }
}
