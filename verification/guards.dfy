/**
 * The three route guards (frontend/src/components/PrivateRoute.jsx,
 * frontend/src/components/DoctorPrivateRoute.jsx,
 * frontend/src/components/AdminPrivateRoute.jsx). Each reads its provider's
 * `loading` and authentication flags and either shows the loading spinner,
 * redirects, or renders the guarded page.
 */
module Guards {
  import opened Base

  /** What a guard renders. */
  datatype GuardView = ShowLoading | RedirectTo(path: string) | ShowChildren

  /** The patient guard. */
  function PrivateRoute(loading: bool, isAuthenticated: bool): (v: GuardView)
    ensures loading ==> v == ShowLoading
    ensures !loading && !isAuthenticated ==> v == RedirectTo("/login")
    ensures v == ShowChildren <==> !loading && isAuthenticated
  {
    if loading then ShowLoading
    else if !isAuthenticated then RedirectTo("/login")
    else ShowChildren
  }

  /** `requireVerification = true`: an omitted prop (`None`) means true. */
  function RequireVerification(prop: Option<bool>): (b: bool)
    ensures prop.None? ==> b
    ensures prop.Some? ==> b == prop.value
  {
    if prop.Some? then prop.value else true
  }

  /** The doctor guard: loading first, then sign-in, then, when verification
      is required, the doctor's verification. */
  function DoctorPrivateRoute(loading: bool, isAuthenticated: bool, isVerified: bool,
                              requireVerification: Option<bool>): (v: GuardView)
    ensures loading ==> v == ShowLoading
    ensures !loading && !isAuthenticated ==> v == RedirectTo("/doctor/login")
    ensures !loading && isAuthenticated && RequireVerification(requireVerification) && !isVerified ==>
              v == RedirectTo("/doctor/pending")
    ensures v == ShowChildren <==>
              !loading && isAuthenticated && (isVerified || !RequireVerification(requireVerification))
  {
    if loading then ShowLoading
    else if !isAuthenticated then RedirectTo("/doctor/login")
    else if RequireVerification(requireVerification) && !isVerified then RedirectTo("/doctor/pending")
    else ShowChildren
  }

  /** `superAdminOnly = false`: an omitted prop (`None`) means false. */
  function SuperAdminOnly(prop: Option<bool>): (b: bool)
    ensures prop.None? ==> !b
    ensures prop.Some? ==> b == prop.value
  {
    if prop.Some? then prop.value else false
  }

  /** The administrator guard: loading first, then sign-in, then, for
      super-administrator pages, the role. */
  function AdminPrivateRoute(loading: bool, isAuthenticated: bool, isSuperAdmin: bool,
                             superAdminOnly: Option<bool>): (v: GuardView)
    ensures loading ==> v == ShowLoading
    ensures !loading && !isAuthenticated ==> v == RedirectTo("/admin/login")
    ensures !loading && isAuthenticated && SuperAdminOnly(superAdminOnly) && !isSuperAdmin ==>
              v == RedirectTo("/admin/dashboard")
    ensures v == ShowChildren <==>
              !loading && isAuthenticated && (isSuperAdmin || !SuperAdminOnly(superAdminOnly))
  {
    if loading then ShowLoading
    else if !isAuthenticated then RedirectTo("/admin/login")
    else if SuperAdminOnly(superAdminOnly) && !isSuperAdmin then RedirectTo("/admin/dashboard")
    else ShowChildren
  }

  /** An omitted `requireVerification` guards like an explicit `true`, and
      with `false` an unverified doctor gets through (the pending page). */
  lemma DoctorGuardDefaults(loading: bool, isAuthenticated: bool, isVerified: bool)
    ensures DoctorPrivateRoute(loading, isAuthenticated, isVerified, None)
            == DoctorPrivateRoute(loading, isAuthenticated, isVerified, Some(true))
    ensures !loading && isAuthenticated ==> DoctorPrivateRoute(loading, isAuthenticated, isVerified, Some(false)) == ShowChildren
  {
  }

  /** An omitted `superAdminOnly` guards like an explicit `false`: any
      signed-in administrator gets through. */
  lemma AdminGuardDefaults(loading: bool, isAuthenticated: bool, isSuperAdmin: bool)
    ensures AdminPrivateRoute(loading, isAuthenticated, isSuperAdmin, None)
            == AdminPrivateRoute(loading, isAuthenticated, isSuperAdmin, Some(false))
    ensures !loading && isAuthenticated ==> AdminPrivateRoute(loading, isAuthenticated, isSuperAdmin, None) == ShowChildren
  {
  }

  /** The redirects never point back at a page the same guard would refuse for
      the same reason: the patient guard sends to the public login, the doctor
      guard to its login or to the pending page (which it serves with
      verification off), the administrator guard to its login or to the
      dashboard (which it serves without the super-administrator flag). */
  lemma RedirectTargetsAdmit(isAuthenticated: bool, isVerified: bool, isSuperAdmin: bool, req: Option<bool>, super: Option<bool>)
    ensures DoctorPrivateRoute(false, isAuthenticated, isVerified, req) == RedirectTo("/doctor/pending") ==>
              DoctorPrivateRoute(false, isAuthenticated, isVerified, Some(false)) == ShowChildren
    ensures AdminPrivateRoute(false, isAuthenticated, isSuperAdmin, super) == RedirectTo("/admin/dashboard") ==>
              AdminPrivateRoute(false, isAuthenticated, isSuperAdmin, None) == ShowChildren
  {
  }
}
