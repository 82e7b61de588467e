/**
 * The doctor registration page (frontend/src/pages/doctor/DoctorRegister.jsx):
 * the same guard sequence as the patient page over seven fields, with a
 * ten-digit phone rule and a redirect for an already signed-in doctor.
 */
module DoctorRegister {
  import opened Base
  import opened Text
  import opened Patterns
  import opened UseForm
  import Register

  const DoctorInitial: map<string, string> :=
    map["name" := "", "email" := "", "password" := "", "confirmPassword" := "",
        "specialization" := "", "licenseNumber" := "", "phone" := ""]

  const PhoneMessage := "Please enter a valid 10-digit phone number"

  const SpecializationRule := FieldRule("specialization", Rule(true, 0, None, ""))
  const LicenseRule := FieldRule("licenseNumber", Rule(true, 0, None, ""))
  const PhoneRule := FieldRule("phone", Rule(true, 0, Some(PhonePattern), PhoneMessage))

  /** The `validationRules` table, in declaration order: the patient table's
      four rules followed by three more. */
  const DoctorRules: seq<FieldRule> := Register.RegisterRules + [SpecializationRule, LicenseRule, PhoneRule]

  /** What the rule table accepts, field by field: the patient table's
      conditions, a non-blank specialization and licence number, and a phone
      number of ten ASCII digits. */
  lemma DoctorRulesAccept(values: map<string, string>)
    ensures ValidationErrors(values, DoctorRules) == map[] <==>
              && !IsBlank(ValueOf(values, "name")) && |ValueOf(values, "name")| >= 2
              && !IsBlank(ValueOf(values, "email")) && IsEmail(ValueOf(values, "email"))
              && !IsBlank(ValueOf(values, "password")) && |ValueOf(values, "password")| >= 6
              && !IsBlank(ValueOf(values, "confirmPassword"))
              && !IsBlank(ValueOf(values, "specialization"))
              && !IsBlank(ValueOf(values, "licenseNumber"))
              && !IsBlank(ValueOf(values, "phone")) && IsPhone(ValueOf(values, "phone"))
  {
    var extra := [SpecializationRule, LicenseRule, PhoneRule];
    ValidationErrorsAppend(values, Register.RegisterRules, extra);
    Register.RegisterRulesAccept(values);
    ExtraRulesPass(values);
  }

  /** The three rules the doctor table adds pass exactly when the specialization
      and licence number are non-blank and the phone is ten ASCII digits. */
  lemma ExtraRulesPass(values: map<string, string>)
    ensures var extra := [SpecializationRule, LicenseRule, PhoneRule];
            (forall i :: 0 <= i < |extra| ==> !Fails(values, extra[i])) <==>
              && !IsBlank(ValueOf(values, "specialization"))
              && !IsBlank(ValueOf(values, "licenseNumber"))
              && !IsBlank(ValueOf(values, "phone")) && IsPhone(ValueOf(values, "phone"))
  {
    var extra := [SpecializationRule, LicenseRule, PhoneRule];
    AllOfThree(values, extra);
    assert extra[0] == SpecializationRule && extra[1] == LicenseRule && extra[2] == PhoneRule;
    assert !Fails(values, SpecializationRule) <==> !IsBlank(ValueOf(values, "specialization"));
    assert !Fails(values, LicenseRule) <==> !IsBlank(ValueOf(values, "licenseNumber"));
    assert !Fails(values, PhoneRule) <==> !IsBlank(ValueOf(values, "phone")) && IsPhone(ValueOf(values, "phone"));
  }

  /** A non-blank phone that is not ten ASCII digits is reported with the
      table's own message. */
  lemma DoctorPhoneMessage(values: map<string, string>)
    requires !IsBlank(ValueOf(values, "phone")) && !IsPhone(ValueOf(values, "phone"))
    ensures "phone" in ValidationErrors(values, DoctorRules)
    ensures ValidationErrors(values, DoctorRules)["phone"] == PhoneMessage
  {
    assert DoctorRules[|DoctorRules| - 1] == PhoneRule;
    ValidationErrorLast(values, DoctorRules);
  }

  /** The effect that moves an already signed-in doctor on: to the dashboard
      when verified, to the pending page otherwise. */
  function DoctorRegisterRedirect(isAuthenticated: bool, isVerified: bool): (target: Option<string>)
    ensures target.Some? <==> isAuthenticated
    ensures target == Some("/doctor/dashboard") <==> isAuthenticated && isVerified
    ensures target == Some("/doctor/pending") <==> isAuthenticated && !isVerified
  {
    if isAuthenticated then
      if isVerified then Some("/doctor/dashboard") else Some("/doctor/pending")
    else None
  }

  class DoctorRegisterPage {
    const form: FormHook
    /** The page's own error map: the one the form displays. */
    var errors: map<string, string>

    constructor ()
      ensures fresh(form)
      ensures form.initialState == DoctorInitial && form.values == DoctorInitial
      ensures form.errors == map[] && errors == map[]
    {
      form := new FormHook(DoctorInitial);
      errors := map[];
    }

    /** `handleSubmit`, with `registerSucceeds` standing for the awaited result
        of `register`. Unlike the patient page it does not clear its own error
        map before registering, and it always goes to the pending page. */
    method HandleSubmit(registerSucceeds: bool) returns (sent: Option<map<string, string>>, nav: Option<string>)
      requires form.initialState == DoctorInitial
      modifies this, form
      ensures Register.PasswordsDiffer(old(form.values)) ==>
                && errors == old(errors)["confirmPassword" := Register.MismatchMessage]
                && form.values == old(form.values) && form.errors == old(form.errors)
                && sent == None && nav == None
      ensures !Register.PasswordsDiffer(old(form.values)) && ValidationErrors(old(form.values), DoctorRules) != map[] ==>
                && form.errors == ValidationErrors(old(form.values), DoctorRules)
                && errors == old(errors) && form.values == old(form.values)
                && sent == None && nav == None
      ensures !Register.PasswordsDiffer(old(form.values)) && ValidationErrors(old(form.values), DoctorRules) == map[] ==>
                && errors == old(errors) && form.errors == map[]
                && sent == Some(Register.RegisterPayload(old(form.values)))
                && (registerSucceeds ==> form.values == DoctorInitial && nav == Some("/doctor/pending"))
                && (!registerSucceeds ==> form.values == old(form.values) && nav == None)
    {
      sent, nav := None, None;
      if Register.PasswordsDiffer(form.values) {
        errors := errors["confirmPassword" := Register.MismatchMessage];
        return;
      }
      var ok := form.Validate(DoctorRules);
      if ok {
        sent := Some(Register.RegisterPayload(form.values));
        if registerSucceeds {
          form.ResetForm();
          nav := Some("/doctor/pending");
        }
      }
    }
  }
}
