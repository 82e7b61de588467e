/**
 * How the administrator management page's list fetch interacts with the
 * route tree (frontend/src/pages/admin/ManageAdmins.jsx and
 * frontend/src/App.jsx). The page's mount effect calls the admin provider's
 * `getAdmins`, and `getAdmins` turns the provider's `loading` flag on while
 * it waits. The whole route tree shows the spinner while any provider flag
 * is on, so the page is discarded; when the call settles, the route renders
 * a new page whose mount effect calls `getAdmins` again.
 *
 * `Settle` models one settled call either way: with the flag switched on, as
 * written, and with only the page's own `loading` in use, as evidently
 * intended. `FetchLoopsAsWritten` and `FetchSettlesCorrected` compare them.
 */
module AdminFetchCycle {
  import opened Base
  import opened AppRoutes
  import opened ManageAdmins
  import opened Text
  import opened Guards

  const ManageAdminsPath := "/admin/admins"

  /** The text of a pattern: the whole path, or the prefix. */
  function PatternText(p: Pattern): string {
    match p
    case Exact(q) => q
    case Param(prefix) => prefix
  }

  /** A pattern does not match "/admin/admins" when its text differs from it
      at some position, or when it is an exact path of another length. */
  lemma Unmatched(p: Pattern, i: nat)
    requires (p.Exact? && |PatternText(p)| != |ManageAdminsPath|)
          || (i < |PatternText(p)| && i < |ManageAdminsPath| && PatternText(p)[i] != ManageAdminsPath[i])
    ensures !Matches(p, ManageAdminsPath)
  {
  }

  /** The routes before "/admin/admins" in the table, four at a time, do not
      match it, so the search passes over them. */
  lemma NoEarlierMatch0()
    ensures FindRoute(ManageAdminsPath, 0) == FindRoute(ManageAdminsPath, 4)
  {
    Unmatched(Routes[0].pattern, 0);
    Unmatched(Routes[1].pattern, 2);
    Unmatched(Routes[2].pattern, 1);
    Unmatched(Routes[3].pattern, 1);
    assert FindRoute(ManageAdminsPath, 0) == FindRoute(ManageAdminsPath, 1);
    assert FindRoute(ManageAdminsPath, 1) == FindRoute(ManageAdminsPath, 2);
    assert FindRoute(ManageAdminsPath, 2) == FindRoute(ManageAdminsPath, 3);
    assert FindRoute(ManageAdminsPath, 3) == FindRoute(ManageAdminsPath, 4);
  }

  lemma NoEarlierMatch4()
    ensures FindRoute(ManageAdminsPath, 4) == FindRoute(ManageAdminsPath, 8)
  {
    Unmatched(Routes[4].pattern, 1);
    Unmatched(Routes[5].pattern, 1);
    Unmatched(Routes[6].pattern, 1);
    Unmatched(Routes[7].pattern, 1);
    assert FindRoute(ManageAdminsPath, 4) == FindRoute(ManageAdminsPath, 5);
    assert FindRoute(ManageAdminsPath, 5) == FindRoute(ManageAdminsPath, 6);
    assert FindRoute(ManageAdminsPath, 6) == FindRoute(ManageAdminsPath, 7);
    assert FindRoute(ManageAdminsPath, 7) == FindRoute(ManageAdminsPath, 8);
  }

  lemma NoEarlierMatch8()
    ensures FindRoute(ManageAdminsPath, 8) == FindRoute(ManageAdminsPath, 12)
  {
    Unmatched(Routes[8].pattern, 1);
    Unmatched(Routes[9].pattern, 1);
    Unmatched(Routes[10].pattern, 1);
    Unmatched(Routes[11].pattern, 7);
    assert FindRoute(ManageAdminsPath, 8) == FindRoute(ManageAdminsPath, 9);
    assert FindRoute(ManageAdminsPath, 9) == FindRoute(ManageAdminsPath, 10);
    assert FindRoute(ManageAdminsPath, 10) == FindRoute(ManageAdminsPath, 11);
    assert FindRoute(ManageAdminsPath, 11) == FindRoute(ManageAdminsPath, 12);
  }

  lemma NoEarlierMatch12()
    ensures FindRoute(ManageAdminsPath, 12) == FindRoute(ManageAdminsPath, 16)
  {
    Unmatched(Routes[12].pattern, 1);
    Unmatched(Routes[13].pattern, 1);
    Unmatched(Routes[14].pattern, 1);
    Unmatched(Routes[15].pattern, 1);
    assert FindRoute(ManageAdminsPath, 12) == FindRoute(ManageAdminsPath, 13);
    assert FindRoute(ManageAdminsPath, 13) == FindRoute(ManageAdminsPath, 14);
    assert FindRoute(ManageAdminsPath, 14) == FindRoute(ManageAdminsPath, 15);
    assert FindRoute(ManageAdminsPath, 15) == FindRoute(ManageAdminsPath, 16);
  }

  lemma NoEarlierMatch16()
    ensures FindRoute(ManageAdminsPath, 16) == FindRoute(ManageAdminsPath, 20)
  {
    Unmatched(Routes[16].pattern, 1);
    Unmatched(Routes[17].pattern, 2);
    Unmatched(Routes[18].pattern, 2);
    Unmatched(Routes[19].pattern, 1);
    assert FindRoute(ManageAdminsPath, 16) == FindRoute(ManageAdminsPath, 17);
    assert FindRoute(ManageAdminsPath, 17) == FindRoute(ManageAdminsPath, 18);
    assert FindRoute(ManageAdminsPath, 18) == FindRoute(ManageAdminsPath, 19);
    assert FindRoute(ManageAdminsPath, 19) == FindRoute(ManageAdminsPath, 20);
  }

  lemma NoEarlierMatch20()
    ensures FindRoute(ManageAdminsPath, 20) == FindRoute(ManageAdminsPath, 24)
  {
    Unmatched(Routes[20].pattern, 1);
    Unmatched(Routes[21].pattern, 1);
    Unmatched(Routes[22].pattern, 1);
    Unmatched(Routes[23].pattern, 1);
    assert FindRoute(ManageAdminsPath, 20) == FindRoute(ManageAdminsPath, 21);
    assert FindRoute(ManageAdminsPath, 21) == FindRoute(ManageAdminsPath, 22);
    assert FindRoute(ManageAdminsPath, 22) == FindRoute(ManageAdminsPath, 23);
    assert FindRoute(ManageAdminsPath, 23) == FindRoute(ManageAdminsPath, 24);
  }

  lemma NoEarlierMatch24()
    ensures FindRoute(ManageAdminsPath, 24) == FindRoute(ManageAdminsPath, 28)
  {
    Unmatched(Routes[24].pattern, 1);
    Unmatched(Routes[25].pattern, 1);
    Unmatched(Routes[26].pattern, 1);
    Unmatched(Routes[27].pattern, 1);
    assert FindRoute(ManageAdminsPath, 24) == FindRoute(ManageAdminsPath, 25);
    assert FindRoute(ManageAdminsPath, 25) == FindRoute(ManageAdminsPath, 26);
    assert FindRoute(ManageAdminsPath, 26) == FindRoute(ManageAdminsPath, 27);
    assert FindRoute(ManageAdminsPath, 27) == FindRoute(ManageAdminsPath, 28);
  }

  lemma NoEarlierMatch28()
    ensures FindRoute(ManageAdminsPath, 28) == FindRoute(ManageAdminsPath, 32)
  {
    Unmatched(Routes[28].pattern, 1);
    Unmatched(Routes[29].pattern, 7);
    Unmatched(Routes[30].pattern, 7);
    Unmatched(Routes[31].pattern, 7);
    assert FindRoute(ManageAdminsPath, 28) == FindRoute(ManageAdminsPath, 29);
    assert FindRoute(ManageAdminsPath, 29) == FindRoute(ManageAdminsPath, 30);
    assert FindRoute(ManageAdminsPath, 30) == FindRoute(ManageAdminsPath, 31);
    assert FindRoute(ManageAdminsPath, 31) == FindRoute(ManageAdminsPath, 32);
  }

  lemma MatchAt32()
    ensures FindRoute(ManageAdminsPath, 32) == Some(Route(Exact(ManageAdminsPath), "ManageAdmins", AdminOnly(Some(true))))
  {
    assert Routes[32] == Route(Exact(ManageAdminsPath), "ManageAdmins", AdminOnly(Some(true)));
  }

  /** The route table sends "/admin/admins" to the super-admin-only page. */
  lemma ManageAdminsRouteFound()
    ensures FindRoute(ManageAdminsPath, 0) == Some(Route(Exact(ManageAdminsPath), "ManageAdmins", AdminOnly(Some(true))))
  {
    NoEarlierMatch0();
    NoEarlierMatch4();
    NoEarlierMatch8();
    NoEarlierMatch12();
    NoEarlierMatch16();
    NoEarlierMatch20();
    NoEarlierMatch24();
    NoEarlierMatch28();
    MatchAt32();
  }

  /** A super administrator's session with every provider settled. */
  predicate SettledSuperAdmin(s: Session) {
    !AnyLoading(s) && s.admin == Some(true)
  }

  /** Once every provider has settled, the route shows a super administrator
      the management page; while the admin provider loads, the spinner. */
  lemma ManageAdminsScreens(s: Session)
    requires SettledSuperAdmin(s)
    ensures Resolve(ManageAdminsPath, s) == Render("ManageAdmins")
    ensures Resolve(ManageAdminsPath, s.(adminLoading := true)) == Spinner
  {
    ManageAdminsRouteFound();
    assert AdminPrivateRoute(false, true, true, Some(true)) == ShowChildren;
  }

  /** The page's own state, `admins` and `loading`, as values. */
  datatype PageState = PageState(admins: seq<AdminEntry>, loading: bool)

  /** The state of a page as it mounts: no rows and loading. */
  const Mounted := PageState([], true)

  /** One `getAdmins` call of a mounted page, settling with `result`; the
      page's state afterwards does not depend on its state before.
      `providerFlag` says whether the call turns the admin provider's loading
      flag on. If the route shows the spinner while the call is pending, the
      page is discarded, its result goes nowhere, and the next page mounts
      and calls again (`again`). Otherwise the result fills the table and the
      page's loading ends. */
  function Settle(s: Session, result: seq<AdminEntry>, providerFlag: bool): (r: (PageState, bool))
    requires SettledSuperAdmin(s)
    ensures r.1 <==> providerFlag
    ensures r.1 ==> r.0 == Mounted
    ensures !r.1 ==> r.0 == PageState(result, false)
  {
    ManageAdminsScreens(s);
    if Resolve(ManageAdminsPath, s.(adminLoading := providerFlag)) == Spinner then (Mounted, true)
    else (PageState(result, false), false)
  }

  /** The page on screen, and the number of further `getAdmins` calls made,
      after the calls settle with `results` in turn, starting from `page`. A
      call that leaves the page mounted is the last one. */
  function Rounds(s: Session, page: PageState, results: seq<seq<AdminEntry>>, providerFlag: bool): (r: (PageState, nat))
    requires SettledSuperAdmin(s)
    ensures r.1 <= |results|
    decreases |results|
  {
    if results == [] then (page, 0)
    else
      var (next, again) := Settle(s, results[0], providerFlag);
      if again then
        var (shown, calls) := Rounds(s, next, results[1..], providerFlag);
        (shown, calls + 1)
      else (next, 0)
  }

  /** As written: however many calls settle, and with whatever lists, every
      settled call brings a new page that calls again, and the page on screen
      is a freshly mounted one, so a super administrator sees the loading view
      and never the table. */
  lemma {:induction false} FetchLoopsAsWritten(s: Session, results: seq<seq<AdminEntry>>)
    requires SettledSuperAdmin(s)
    ensures Rounds(s, Mounted, results, true) == (Mounted, |results|)
    ensures View(true, Rounds(s, Mounted, results, true).0.loading) == LoadingView
    decreases |results|
  {
    if results != [] {
      FetchLoopsAsWritten(s, results[1..]);
    }
  }

  /** The evidently intended behaviour, with only the page's own loading in
      use: the first call to settle fills the table with its list, no further
      call is made, and the super administrator sees the table. */
  lemma FetchSettlesCorrected(s: Session, result: seq<AdminEntry>, later: seq<seq<AdminEntry>>)
    requires SettledSuperAdmin(s)
    ensures Rounds(s, Mounted, [result] + later, false) == (PageState(result, false), 0)
    ensures View(true, Rounds(s, Mounted, [result] + later, false).0.loading) == AdminTable
  {
    assert ([result] + later)[0] == result;
  }
}
