/**
 * The top-level routing of the single-page app (frontend/src/App.jsx): the
 * route-prefix tests that pick the navigation bar, the loading gate over the
 * three sign-in providers, and the route table with its redirects and guards.
 */
module AppRoutes {
  import opened Base
  import opened Text
  import opened Guards

  /** `location.pathname.startsWith("/doctor/")`. */
  predicate IsDoctorRoute(path: string) {
    StartsWith(path, "/doctor/")
  }

  /** `location.pathname.startsWith("/admin/")`. */
  predicate IsAdminRoute(path: string) {
    StartsWith(path, "/admin/")
  }

  /** The doctor prefix ends in a slash: a path is a doctor route exactly when
      "/doctor" is followed by "/", so "/doctor" itself and the patient pages
      such as "/doctor-details/..." get the patients' navigation bar. */
  lemma DoctorSectionPrefix(path: string)
    ensures IsDoctorRoute(path) <==> StartsWith(path, "/doctor") && |path| > 7 && path[7] == '/'
    ensures StartsWith(path, "/doctor") && (|path| == 7 || path[7] != '/') ==> NavbarFor(path) == PatientNavbar
  {
    if StartsWith(path, "/doctor") {
      assert path[1] == 'd';
      if |path| > 7 && path[7] == '/' {
        assert path[..8] == path[..7] + [path[7]];
      }
    }
    if IsDoctorRoute(path) {
      assert path[..7] == "/doctor/"[..7];
    }
    if IsAdminRoute(path) {
      assert path[1] == 'a';
    }
  }

  /** Likewise for the administrator prefix: "/admin" must be followed by "/",
      so "/admin" itself gets the patients' navigation bar. */
  lemma AdminSectionPrefix(path: string)
    ensures IsAdminRoute(path) <==> StartsWith(path, "/admin") && |path| > 6 && path[6] == '/'
    ensures StartsWith(path, "/admin") && (|path| == 6 || path[6] != '/') ==> NavbarFor(path) == PatientNavbar
  {
    if StartsWith(path, "/admin") {
      assert path[1] == 'a';
      if |path| > 6 && path[6] == '/' {
        assert path[..7] == path[..6] + [path[6]];
      }
    }
    if IsAdminRoute(path) {
      assert path[..6] == "/admin/"[..6];
    }
    if IsDoctorRoute(path) {
      assert path[1] == 'd';
    }
  }

  datatype Navbar = AdminNavbar | DoctorNavbar | PatientNavbar

  /** The navigation bar: the administrator's on admin routes, else the
      doctor's on doctor routes, else the patients'. */
  function NavbarFor(path: string): (n: Navbar)
    ensures n == AdminNavbar <==> IsAdminRoute(path)
    ensures n == DoctorNavbar <==> IsDoctorRoute(path) && !IsAdminRoute(path)
    ensures n == PatientNavbar <==> !IsDoctorRoute(path) && !IsAdminRoute(path)
  {
    if IsAdminRoute(path) then AdminNavbar
    else if IsDoctorRoute(path) then DoctorNavbar
    else PatientNavbar
  }

  /** No path is in both sections, so the admin-first order never matters. */
  lemma SectionsDisjoint(path: string)
    ensures !(IsDoctorRoute(path) && IsAdminRoute(path))
  {
    if IsAdminRoute(path) {
      assert path[1] == "/admin/"[1];
    }
  }

  /** The three providers' state. A signed-in doctor carries `isVerified`,
      a signed-in administrator whether the role is "superadmin". */
  datatype Session = Session(
    userLoading: bool, doctorLoading: bool, adminLoading: bool,
    user: bool, doctor: Option<bool>, admin: Option<bool>)

  predicate AnyLoading(s: Session) {
    s.userLoading || s.doctorLoading || s.adminLoading
  }

  /** What a route renders. */
  datatype Screen = Spinner | Redirect(to: string) | Render(page: string)

  /** A route's path: a fixed path, or a prefix followed by one non-empty
      parameter segment. */
  datatype Pattern = Exact(path: string) | Param(prefix: string)

  predicate Matches(p: Pattern, path: string) {
    match p
    case Exact(q) => path == q
    case Param(prefix) => StartsWith(path, prefix) && |path| > |prefix| && '/' !in path[|prefix|..]
  }

  /** How a route decides what to render. */
  datatype Access =
    | Open                                    // public page
    | Home                                    // "/": redirect by who is signed in
    | PatientEntry                            // "/login", "/register"
    | DoctorEntry                             // "/doctor/login", "/doctor/register"
    | AdminEntry                              // "/admin/login"
    | PatientOnly                             // inside PrivateRoute
    | DoctorOnly(requireVerification: bool)   // inside DoctorPrivateRoute
    | DoctorPending                           // "/doctor/pending"
    | AdminOnly(superAdminOnly: Option<bool>) // inside AdminPrivateRoute

  datatype Route = Route(pattern: Pattern, page: string, access: Access)

  /** The route table, in the order it is declared. */
  const Routes: seq<Route> := [
    Route(Exact("/"), "Home", Home),
    Route(Exact("/about-us"), "AboutUs", Open),
    Route(Exact("/contact-us"), "ContactUs", Open),
    Route(Exact("/terms-for-doctor"), "TermsForDoctor", Open),
    Route(Exact("/privacy-policy"), "PrivacyPolicy", Open),
    Route(Exact("/terms-of-service"), "TermsOfService", Open),
    Route(Exact("/faq"), "FAQ", Open),
    Route(Exact("/login"), "Login", PatientEntry),
    Route(Exact("/register"), "Register", PatientEntry),
    Route(Exact("/doctor/login"), "DoctorLogin", DoctorEntry),
    Route(Exact("/doctor/register"), "DoctorRegister", DoctorEntry),
    Route(Exact("/admin/login"), "AdminLogin", AdminEntry),
    Route(Exact("/dashboard"), "Dashboard", PatientOnly),
    Route(Exact("/profile"), "UserProfile", PatientOnly),
    Route(Exact("/find-doctors"), "FindDoctors", PatientOnly),
    Route(Param("/doctor-details/"), "DoctorDetails", PatientOnly),
    Route(Param("/book-appointment/"), "BookAppointment", PatientOnly),
    Route(Exact("/appointments"), "AppointmentList", PatientOnly),
    Route(Param("/appointments/"), "UserAppointmentDetails", PatientOnly),
    Route(Param("/payment/"), "PaymentPage", PatientOnly),
    Route(Param("/payment-success/"), "PaymentSuccess", PatientOnly),
    Route(Param("/payment-failed/"), "PaymentFailed", PatientOnly),
    Route(Exact("/payment-history"), "PaymentHistory", PatientOnly),
    Route(Exact("/doctor/dashboard"), "DoctorDashboard", DoctorOnly(true)),
    Route(Exact("/doctor/pending"), "DoctorPending", DoctorPending),
    Route(Exact("/doctor/appointments"), "DoctorAppointments", DoctorOnly(true)),
    Route(Param("/doctor/appointments/"), "DoctorAppointmentDetails", DoctorOnly(true)),
    Route(Exact("/doctor/schedule"), "DoctorSchedule", DoctorOnly(true)),
    Route(Exact("/doctor/profile-update"), "DoctorProfileUpdate", DoctorOnly(true)),
    Route(Exact("/admin/dashboard"), "AdminDashboard", AdminOnly(None)),
    Route(Exact("/admin/doctors"), "ManageDoctors", AdminOnly(None)),
    Route(Exact("/admin/users"), "ManageUsers", AdminOnly(None)),
    Route(Exact("/admin/admins"), "ManageAdmins", AdminOnly(Some(true))),
    Route(Exact("/admin/appointments"), "ManageAppointments", AdminOnly(None)),
    Route(Exact("/admin/payments"), "ManagePayments", AdminOnly(None)),
    Route(Param("/admin/payments/"), "PaymentDetails", AdminOnly(None)),
    Route(Param("/admin/appointments/"), "AppointmentDetails", AdminOnly(None)),
    Route(Exact("/admin/profile"), "AdminProfile", AdminOnly(None))
  ]

  /** The first route from index `i` on whose pattern matches. */
  function FindRoute(path: string, i: nat): (r: Option<Route>)
    requires i <= |Routes|
    ensures r.Some? ==> r.value in Routes && Matches(r.value.pattern, path)
    ensures r.None? <==> forall k :: i <= k < |Routes| ==> !Matches(Routes[k].pattern, path)
    decreases |Routes| - i
  {
    if i == |Routes| then None
    else if Matches(Routes[i].pattern, path) then Some(Routes[i])
    else FindRoute(path, i + 1)
  }

  /** The view of a guard, as the page it guards. */
  function Guarded(v: GuardView, page: string): (sc: Screen)
    ensures v == ShowLoading ==> sc == Spinner
    ensures v.RedirectTo? ==> sc == Redirect(v.path)
    ensures v == ShowChildren ==> sc == Render(page)
  {
    match v
    case ShowLoading => Spinner
    case RedirectTo(to) => Redirect(to)
    case ShowChildren => Render(page)
  }

  /** Where "/" sends: the patient dashboard, else the doctor's, else the
      administrator's; nowhere (the home page) when nobody is signed in. */
  function HomeRedirect(s: Session): (to: Option<string>)
    ensures s.user ==> to == Some("/dashboard")
    ensures !s.user && s.doctor.Some? ==> to == Some("/doctor/dashboard")
    ensures !s.user && s.doctor.None? && s.admin.Some? ==> to == Some("/admin/dashboard")
    ensures to.None? <==> !s.user && s.doctor.None? && s.admin.None?
  {
    if s.user || s.doctor.Some? || s.admin.Some? then
      if s.user then Some("/dashboard")
      else if s.doctor.Some? then Some("/doctor/dashboard")
      else Some("/admin/dashboard")
    else None
  }

  /** Where a signed-in doctor's login or registration page sends: the
      dashboard when verified, else the pending page. */
  function DoctorHome(verified: bool): (to: string)
    ensures verified <==> to == "/doctor/dashboard"
    ensures !verified <==> to == "/doctor/pending"
  {
    if verified then "/doctor/dashboard" else "/doctor/pending"
  }

  /** The element of a matched route (after the loading gate). */
  function Element(r: Route, s: Session): (sc: Screen)
    ensures r.access == Open ==> sc == Render(r.page)
    ensures r.access == PatientEntry ==> sc == if s.user then Redirect("/dashboard") else Render(r.page)
    ensures r.access == DoctorEntry ==>
              sc == if s.doctor.Some? then Redirect(DoctorHome(s.doctor.value)) else Render(r.page)
    ensures r.access == AdminEntry ==> sc == if s.admin.Some? then Redirect("/admin/dashboard") else Render(r.page)
    ensures r.access == DoctorPending && s.doctor == Some(true) ==> sc == Redirect("/doctor/dashboard")
    ensures r.access == Home ==> (sc == Render(r.page) <==> !s.user && s.doctor.None? && s.admin.None?)
    ensures r.access == Home && HomeRedirect(s).Some? ==> sc == Redirect(HomeRedirect(s).value)
    ensures r.access == PatientOnly ==> sc == Guarded(PrivateRoute(s.userLoading, s.user), r.page)
    ensures r.access.DoctorOnly? ==>
              sc == Guarded(DoctorPrivateRoute(s.doctorLoading, s.doctor.Some?, s.doctor == Some(true),
                                               Some(r.access.requireVerification)), r.page)
    ensures r.access == DoctorPending && s.doctor != Some(true) ==>
              sc == Guarded(DoctorPrivateRoute(s.doctorLoading, s.doctor.Some?, false, Some(false)), r.page)
    ensures r.access.AdminOnly? ==>
              sc == Guarded(AdminPrivateRoute(s.adminLoading, s.admin.Some?, s.admin == Some(true),
                                              r.access.superAdminOnly), r.page)
  {
    match r.access
    case Open => Render(r.page)
    case Home => if HomeRedirect(s).Some? then Redirect(HomeRedirect(s).value) else Render(r.page)
    case PatientEntry => if s.user then Redirect("/dashboard") else Render(r.page)
    case DoctorEntry => if s.doctor.Some? then Redirect(DoctorHome(s.doctor.value)) else Render(r.page)
    case AdminEntry => if s.admin.Some? then Redirect("/admin/dashboard") else Render(r.page)
    case PatientOnly => Guarded(PrivateRoute(s.userLoading, s.user), r.page)
    case DoctorOnly(req) =>
      Guarded(DoctorPrivateRoute(s.doctorLoading, s.doctor.Some?, s.doctor == Some(true), Some(req)), r.page)
    case DoctorPending =>
      if s.doctor == Some(true) then Redirect("/doctor/dashboard")
      else Guarded(DoctorPrivateRoute(s.doctorLoading, s.doctor.Some?, s.doctor == Some(true), Some(false)), r.page)
    case AdminOnly(superOnly) =>
      Guarded(AdminPrivateRoute(s.adminLoading, s.admin.Some?, s.admin == Some(true), superOnly), r.page)
  }

  /** The whole decision for a path: the spinner while any provider loads,
      else the first matching route, else the catch-all redirect to "/". */
  function Resolve(path: string, s: Session): (sc: Screen)
    ensures AnyLoading(s) ==> sc == Spinner
    ensures !AnyLoading(s) && (forall k :: 0 <= k < |Routes| ==> !Matches(Routes[k].pattern, path)) ==>
              sc == Redirect("/")
  {
    if AnyLoading(s) then Spinner
    else
      match FindRoute(path, 0)
      case None => Redirect("/")
      case Some(r) => Element(r, s)
  }

  /** Whether a session may see a route's page. */
  predicate Admitted(a: Access, s: Session) {
    match a
    case Open => true
    case Home => !s.user && s.doctor.None? && s.admin.None?
    case PatientEntry => !s.user
    case DoctorEntry => s.doctor.None?
    case AdminEntry => s.admin.None?
    case PatientOnly => s.user
    case DoctorOnly(req) => s.doctor.Some? && (s.doctor.value || !req)
    case DoctorPending => s.doctor == Some(false)
    case AdminOnly(superOnly) => s.admin.Some? && (s.admin.value || !SuperAdminOnly(superOnly))
  }

  /** A page is rendered only for a session its route admits, and, once
      nothing is loading, a matched route's page is rendered exactly when its
      route admits the session. */
  lemma ElementRendersIffAdmitted(r: Route, s: Session)
    requires !AnyLoading(s)
    ensures Element(r, s).Render? ==> Element(r, s).page == r.page
    ensures Element(r, s).Render? <==> Admitted(r.access, s)
  {
    match r.access
    case Open =>
    case Home =>
    case PatientEntry =>
    case DoctorEntry =>
    case AdminEntry =>
    case PatientOnly =>
    case DoctorOnly(req) =>
    case DoctorPending =>
      if s.doctor == Some(false) {
        assert DoctorPrivateRoute(false, true, false, Some(false)) == ShowChildren;
        assert Element(r, s) == Render(r.page);
      } else if s.doctor.None? {
        assert DoctorPrivateRoute(false, false, false, Some(false)) == RedirectTo("/doctor/login");
      } else {
        assert s.doctor == Some(s.doctor.value) && s.doctor.value;
      }
    case AdminOnly(superOnly) =>
  }

  /** Every page shown comes from a route that matches the path and admits the
      session: no guarded page is ever rendered past its guard. */
  lemma RenderedPagesAreAdmitted(path: string, s: Session, page: string)
    requires Resolve(path, s) == Render(page)
    ensures exists r :: r in Routes && Matches(r.pattern, path) && r.page == page && Admitted(r.access, s)
  {
    var r := FindRoute(path, 0).value;
    ElementRendersIffAdmitted(r, s);
  }

  /** "/" redirects by who is signed in, patient first, and shows the home
      page to a visitor. */
  lemma RootRoute(s: Session)
    requires !AnyLoading(s)
    ensures Resolve("/", s) == if HomeRedirect(s).Some? then Redirect(HomeRedirect(s).value) else Render("Home")
  {
    assert Matches(Routes[0].pattern, "/");
  }
}
