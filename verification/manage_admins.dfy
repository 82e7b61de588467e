/**
 * The super-administrator's admin management page
 * (frontend/src/pages/admin/ManageAdmins.jsx): the create-admin form and its
 * checks, the delete flow, and who may see the page and delete whom.
 */
module ManageAdmins {
  import opened Base
  import opened Text

  datatype AdminField = AdminName | AdminEmail | AdminPassword

  /** The create form's `formData`. */
  datatype NewAdmin = NewAdmin(name: string, email: string, password: string)

  /** A row of the administrator table. */
  datatype AdminEntry = AdminEntry(id: string, name: string, email: string, role: string)

  const EmptyForm := NewAdmin("", "", "")
  const AllFieldsRequired := "All fields are required"
  const PasswordTooShort := "Password must be at least 6 characters"

  /** `role === "superadmin"`, the test behind the `isSuperAdmin` flag. */
  predicate IsSuperAdminRole(role: string) {
    role == "superadmin"
  }

  /** The message `handleSubmit` rejects the form with, if any: an empty
      (falsy) field first, then a password under six characters. Nothing is
      trimmed, so a field of spaces counts as filled in. */
  function CreateRejection(f: NewAdmin): (r: Option<string>)
    ensures r.None? <==> f.name != "" && f.email != "" && f.password != "" && |f.password| >= 6
    ensures (f.name == "" || f.email == "" || f.password == "") ==> r == Some(AllFieldsRequired)
    ensures f.name != "" && f.email != "" && f.password != "" && |f.password| < 6 ==> r == Some(PasswordTooShort)
  {
    if f.name == "" || f.email == "" || f.password == "" then Some(AllFieldsRequired)
    else if |f.password| < 6 then Some(PasswordTooShort)
    else None
  }

  /** Nothing is trimmed: a name and an email made only of white space pass
      the checks, although the registration forms would call them blank. */
  lemma BlankFieldsAccepted(f: NewAdmin)
    requires f.name != "" && f.email != "" && |f.password| >= 6
    requires IsBlank(f.name) && IsBlank(f.email)
    ensures CreateRejection(f).None?
  {
  }

  function SetField(f: NewAdmin, field: AdminField, value: string): (r: NewAdmin)
    ensures field == AdminName ==> r == f.(name := value)
    ensures field == AdminEmail ==> r == f.(email := value)
    ensures field == AdminPassword ==> r == f.(password := value)
  {
    match field
    case AdminName => f.(name := value)
    case AdminEmail => f.(email := value)
    case AdminPassword => f.(password := value)
  }

  datatype PageView = AccessDenied | LoadingView | AdminTable

  /** What the page renders: the access check comes before the loading check. */
  function View(isSuperAdmin: bool, loading: bool): (v: PageView)
    ensures v == AccessDenied <==> !isSuperAdmin
    ensures v == LoadingView <==> isSuperAdmin && loading
    ensures v == AdminTable <==> isSuperAdmin && !loading
  {
    if !isSuperAdmin then AccessDenied
    else if loading then LoadingView
    else AdminTable
  }

  /** The role badge of a row. */
  function RoleBadge(role: string): (text: string)
    ensures IsSuperAdminRole(role) ==> text == "Super Admin"
    ensures !IsSuperAdminRole(role) ==> text == "Admin"
  {
    if role == "superadmin" then "Super Admin" else "Admin"
  }

  /** Whether a row carries a Delete button. */
  predicate CanDelete(a: AdminEntry) {
    a.role != "superadmin"
  }

  /** Delete is offered exactly on rows badged "Admin", never on a super
      administrator's row. */
  lemma DeleteOnlyPlainAdmins(a: AdminEntry)
    ensures CanDelete(a) <==> RoleBadge(a.role) == "Admin"
    ensures CanDelete(a) <==> !IsSuperAdminRole(a.role)
  {
  }

  /** The label of the header button. */
  function ToggleLabel(showCreateForm: bool): (text: string)
    ensures showCreateForm ==> text == "Cancel"
    ensures !showCreateForm ==> text == "Create New Admin"
  {
    if showCreateForm then "Cancel" else "Create New Admin"
  }

  class ManageAdminsPage {
    var admins: seq<AdminEntry>
    var loading: bool
    var showCreateForm: bool
    var formData: NewAdmin

    constructor ()
      ensures admins == [] && loading && !showCreateForm && formData == EmptyForm
    {
      admins := [];
      loading := true;
      showCreateForm := false;
      formData := EmptyForm;
    }

    /** The end of `fetchAdmins`: `getAdmins` catches its own errors and
        resolves with `[]` on a failed request, so the list it resolves with
        always replaces the table (a failure empties it); loading ends. */
    method FinishFetch(adminList: seq<AdminEntry>)
      modifies this
      ensures !loading
      ensures admins == adminList
      ensures showCreateForm == old(showCreateForm) && formData == old(formData)
    {
      admins := adminList;
      loading := false;
    }

    /** `handleChange`: sets the named field only. */
    method HandleChange(field: AdminField, value: string)
      modifies this
      ensures formData == SetField(old(formData), field, value)
      ensures admins == old(admins) && loading == old(loading) && showCreateForm == old(showCreateForm)
    {
      formData := SetField(formData, field, value);
    }

    /** The header button: shows or hides the create form. */
    method ToggleCreateForm()
      modifies this
      ensures showCreateForm == !old(showCreateForm)
      ensures admins == old(admins) && loading == old(loading) && formData == old(formData)
    {
      showCreateForm := !showCreateForm;
    }

    /** `handleSubmit`, with `created` standing for the truthiness of the
        awaited `createNewAdmin` result. Returns the rejection message, the
        form data handed to `createNewAdmin` (if it was called), and whether
        the list is fetched again, which turns `loading` on at once. */
    method HandleSubmit(created: bool) returns (rejection: Option<string>, sent: Option<NewAdmin>, refetch: bool)
      modifies this
      ensures rejection == CreateRejection(old(formData))
      ensures rejection.Some? ==> sent == None && !refetch && formData == old(formData) && showCreateForm == old(showCreateForm)
      ensures rejection.None? ==> sent == Some(old(formData))
      ensures rejection.None? && created ==> formData == EmptyForm && !showCreateForm && refetch
      ensures rejection.None? && !created ==> formData == old(formData) && showCreateForm == old(showCreateForm) && !refetch
      ensures loading == (old(loading) || refetch)
      ensures admins == old(admins)
    {
      rejection, sent, refetch := CreateRejection(formData), None, false;
      if rejection.Some? {
        return;
      }
      sent := Some(formData);
      if created {
        formData := EmptyForm;
        showCreateForm := false;
        refetch := true;
        loading := true;
      }
    }
  }

  /** `handleDelete`: `removeAdmin` is called only after the dialog is
      confirmed, and a truthy result makes the list be fetched again. Returns
      the id handed to `removeAdmin`, if any, and whether to refetch. */
  method HandleDelete(adminId: string, confirmed: bool, removed: bool) returns (sent: Option<string>, refetch: bool)
    ensures sent.Some? <==> confirmed
    ensures sent.Some? ==> sent.value == adminId
    ensures refetch <==> confirmed && removed
  {
    sent, refetch := None, false;
    if confirmed {
      sent := Some(adminId);
      if removed {
        refetch := true;
      }
    }
  }
}
