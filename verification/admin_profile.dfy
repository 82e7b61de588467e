/**
 * The administrator's profile page (frontend/src/pages/admin/AdminProfile.jsx):
 * a three-field form with a hand-written validator, change and cancel
 * handlers, and a submit guard in front of `updateProfile`.
 */
module AdminProfile {
  import opened Base
  import opened Text

  datatype Field = Name | Password | ConfirmPassword

  /** The `formData` object. */
  datatype ProfileForm = ProfileForm(name: string, password: string, confirmPassword: string)

  /** The signed-in administrator as the page reads it: only the name is used. */
  datatype AdminRecord = AdminRecord(name: Option<string>)

  const NameRequired := "Name is required"
  const PasswordTooShort := "Password must be at least 6 characters"
  const PasswordsMismatch := "Passwords do not match"

  /** The form a (possibly missing) administrator record loads into:
      `admin?.name || ""` and two empty passwords. */
  function FormFor(admin: Option<AdminRecord>): (f: ProfileForm)
    ensures f.password == "" && f.confirmPassword == ""
    ensures admin.Some? && admin.value.name.Some? ==> f.name == admin.value.name.value
    ensures admin.None? || admin.value.name.None? ==> f.name == ""
  {
    ProfileForm(if admin.Some? then OrEmpty(admin.value.name) else "", "", "")
  }

  function Get(f: ProfileForm, field: Field): string {
    match field
    case Name => f.name
    case Password => f.password
    case ConfirmPassword => f.confirmPassword
  }

  /** `{...formData, [name]: value}`. */
  function Set(f: ProfileForm, field: Field, value: string): (r: ProfileForm)
    ensures Get(r, field) == value
    ensures forall other :: other != field ==> Get(r, other) == Get(f, other)
  {
    match field
    case Name => f.(name := value)
    case Password => f.(password := value)
    case ConfirmPassword => f.(confirmPassword := value)
  }

  /** The error map `validate` builds. The password checks fire only for a
      non-empty (truthy) password; both can fire at once. */
  function ProfileErrors(f: ProfileForm): (e: map<Field, string>)
    ensures Name in e <==> IsBlank(f.name)
    ensures Password in e <==> f.password != "" && |f.password| < 6
    ensures ConfirmPassword in e <==> f.password != "" && f.password != f.confirmPassword
    ensures Name in e ==> e[Name] == NameRequired
    ensures Password in e ==> e[Password] == PasswordTooShort
    ensures ConfirmPassword in e ==> e[ConfirmPassword] == PasswordsMismatch
  {
    var e1 := if IsBlank(f.name) then map[Name := NameRequired] else map[];
    var e2 := if f.password != "" && |f.password| < 6 then e1[Password := PasswordTooShort] else e1;
    if f.password != "" && f.password != f.confirmPassword then e2[ConfirmPassword := PasswordsMismatch] else e2
  }

  /** The profile form is accepted exactly when the name is not blank and the
      password is either left empty (no change) or at least six characters and
      confirmed. */
  lemma ProfileAccepted(f: ProfileForm)
    ensures ProfileErrors(f) == map[] <==>
              !IsBlank(f.name) && (f.password == "" || (|f.password| >= 6 && f.password == f.confirmPassword))
  {
    var e := ProfileErrors(f);
    if e != map[] {
      var k :| k in e;
    }
  }

  /** An empty password is never reported on, whatever confirmPassword holds. */
  lemma EmptyPasswordNoPasswordErrors(f: ProfileForm)
    requires f.password == ""
    ensures ProfileErrors(f).Keys <= {Name}
  {
  }

  /** A short password that does not match is reported twice at once, and
      the form is refused whatever the name. */
  lemma ShortMismatchBothReported(f: ProfileForm)
    requires 0 < |f.password| < 6 && f.password != f.confirmPassword
    ensures var e := ProfileErrors(f);
            e[Password] == PasswordTooShort && e[ConfirmPassword] == PasswordsMismatch
    ensures ProfileErrors(f) != map[]
  {
  }

  /** The entries `handleSubmit` appends to the `FormData` it sends: the three
      fields, then the image when one was chosen. */
  function UpdatePayload(f: ProfileForm, profileImage: Option<string>): (p: seq<(string, string)>)
    ensures |p| == if profileImage.Some? then 4 else 3
    ensures p[..3] == [("name", f.name), ("password", f.password), ("confirmPassword", f.confirmPassword)]
    ensures profileImage.Some? ==> p[3] == ("profileImage", profileImage.value)
  {
    var fields := [("name", f.name), ("password", f.password), ("confirmPassword", f.confirmPassword)];
    if profileImage.Some? then fields + [("profileImage", profileImage.value)] else fields
  }

  /** Whether the page is still editing after `handleSubmit`, given the form
      submitted, whether it was editing, and what `updateProfile` resolved
      with: a form with errors keeps the mode, any other leaves it. */
  function EditingAfterSubmit(f: ProfileForm, wasEditing: bool, updateResult: bool): (editing: bool)
    ensures editing <==> wasEditing && ProfileErrors(f) != map[]
  {
    if ProfileErrors(f) != map[] then wasEditing else false
  }

  /** The result of `updateProfile` is ignored: a failed update (`false`)
      leaves editing mode exactly as a successful one does, so an accepted
      form always ends editing. */
  lemma FailedUpdateLeavesEditing(f: ProfileForm, wasEditing: bool)
    requires !IsBlank(f.name) && (f.password == "" || (|f.password| >= 6 && f.password == f.confirmPassword))
    ensures !EditingAfterSubmit(f, wasEditing, false)
    ensures EditingAfterSubmit(f, wasEditing, false) == EditingAfterSubmit(f, wasEditing, true)
  {
    ProfileAccepted(f);
  }

  class AdminProfilePage {
    var isEditing: bool
    var formData: ProfileForm
    var errors: map<Field, string>
    /** The chosen image file, identified by name. */
    var profileImage: Option<string>

    constructor ()
      ensures !isEditing && formData == ProfileForm("", "", "") && errors == map[] && profileImage == None
    {
      isEditing := false;
      formData := ProfileForm("", "", "");
      errors := map[];
      profileImage := None;
    }

    /** The effect run when the administrator record arrives: a present record
        reloads the form, a missing one changes nothing. */
    method Load(admin: Option<AdminRecord>)
      modifies this
      ensures admin.Some? ==> formData == FormFor(admin)
      ensures admin.None? ==> formData == old(formData)
      ensures isEditing == old(isEditing) && errors == old(errors) && profileImage == old(profileImage)
    {
      if admin.Some? {
        formData := FormFor(admin);
      }
    }

    /** The Edit Profile button. */
    method StartEditing()
      modifies this
      ensures isEditing
      ensures formData == old(formData) && errors == old(errors) && profileImage == old(profileImage)
    {
      isEditing := true;
    }

    /** `handleChange`: sets one field and blanks its error if it had one. */
    method HandleChange(field: Field, value: string)
      modifies this
      ensures formData == Set(old(formData), field, value)
      ensures errors == if field in old(errors) && old(errors)[field] != "" then old(errors)[field := ""] else old(errors)
      ensures isEditing == old(isEditing) && profileImage == old(profileImage)
    {
      formData := Set(formData, field, value);
      if field in errors && errors[field] != "" {
        errors := errors[field := ""];
      }
    }

    /** `handleImageChange`: a chosen file replaces the image; no file changes nothing. */
    method HandleImageChange(file: Option<string>)
      modifies this
      ensures profileImage == if file.Some? then file else old(profileImage)
      ensures isEditing == old(isEditing) && formData == old(formData) && errors == old(errors)
    {
      if file.Some? {
        profileImage := file;
      }
    }

    /** `validate`: replaces the error map with the errors of the current form
        and reports whether there are none. */
    method Validate() returns (ok: bool)
      modifies this`errors
      ensures errors == ProfileErrors(formData)
      ensures ok <==> errors == map[]
    {
      var newErrors: map<Field, string> := map[];
      if IsBlank(formData.name) {
        newErrors := newErrors[Name := NameRequired];
      }
      if formData.password != "" && |formData.password| < 6 {
        newErrors := newErrors[Password := PasswordTooShort];
      }
      if formData.password != "" && formData.password != formData.confirmPassword {
        newErrors := newErrors[ConfirmPassword := PasswordsMismatch];
      }
      assert newErrors == ProfileErrors(formData);
      errors := newErrors;
      ok := newErrors == map[];
    }

    /** `handleSubmit`, with `updateResult` standing for the boolean the awaited
        `updateProfile` resolves with. That call catches its own errors and
        resolves with `false` instead of rejecting, and the page does not look
        at the result: every submit that passes validation leaves editing mode.
        Returns what was sent, if anything. */
    method HandleSubmit(updateResult: bool) returns (sent: Option<seq<(string, string)>>)
      modifies this
      ensures errors == ProfileErrors(old(formData))
      ensures errors != map[] ==> sent == None
      ensures errors == map[] ==> sent == Some(UpdatePayload(old(formData), old(profileImage)))
      ensures isEditing == EditingAfterSubmit(old(formData), old(isEditing), updateResult)
      ensures formData == old(formData) && profileImage == old(profileImage)
    {
      var ok := Validate();
      if !ok {
        return None;
      }
      sent := Some(UpdatePayload(formData, profileImage));
      isEditing := false;
    }

    /** `handleCancel`: leaves editing, reloads the form from the record and
        clears every error. */
    method HandleCancel(admin: Option<AdminRecord>)
      modifies this
      ensures !isEditing && formData == FormFor(admin) && errors == map[]
      ensures profileImage == old(profileImage)
    {
      isEditing := false;
      formData := FormFor(admin);
      errors := map[];
    }
  }
}
