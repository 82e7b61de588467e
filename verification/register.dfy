/**
 * The patient registration page (frontend/src/pages/Register.jsx): a `useForm`
 * instance over four fields, a rule table, the page's own error map (the one
 * the page displays), and the submit guard sequence.
 */
module Register {
  import opened Base
  import opened Text
  import opened Patterns
  import opened UseForm

  const RegisterInitial: map<string, string> :=
    map["name" := "", "email" := "", "password" := "", "confirmPassword" := ""]

  const EmailMessage := "Please enter a valid email address"
  const MismatchMessage := "Passwords do not match"

  const NameRule := FieldRule("name", Rule(true, 2, None, ""))
  const EmailRule := FieldRule("email", Rule(true, 0, Some(EmailPattern), EmailMessage))
  const PasswordRule := FieldRule("password", Rule(true, 6, None, ""))
  const ConfirmRule := FieldRule("confirmPassword", Rule(true, 0, None, ""))

  /** The `validationRules` table, in declaration order. */
  const RegisterRules: seq<FieldRule> := [NameRule, EmailRule, PasswordRule, ConfirmRule]

  /** `values.key`: `None` plays the part of `undefined`. */
  function Lookup(values: map<string, string>, key: string): (r: Option<string>)
    ensures r.Some? <==> key in values
    ensures r.Some? ==> r.value == values[key]
  {
    if key in values then Some(values[key]) else None
  }

  /** `values.password !== values.confirmPassword`. */
  predicate PasswordsDiffer(values: map<string, string>) {
    Lookup(values, "password") != Lookup(values, "confirmPassword")
  }

  /** The form data sent to `register`: every value but `confirmPassword`. */
  function RegisterPayload(values: map<string, string>): (p: map<string, string>)
    ensures "confirmPassword" !in p
    ensures forall k :: k != "confirmPassword" ==> (k in p <==> k in values)
    ensures forall k :: k in p ==> p[k] == values[k]
  {
    values - {"confirmPassword"}
  }

  /** What the rule table accepts, field by field. */
  lemma RegisterRulesAccept(values: map<string, string>)
    ensures ValidationErrors(values, RegisterRules) == map[] <==>
              && !IsBlank(ValueOf(values, "name")) && |ValueOf(values, "name")| >= 2
              && !IsBlank(ValueOf(values, "email")) && IsEmail(ValueOf(values, "email"))
              && !IsBlank(ValueOf(values, "password")) && |ValueOf(values, "password")| >= 6
              && !IsBlank(ValueOf(values, "confirmPassword"))
  {
    ValidationErrorsEmpty(values, RegisterRules);
    AllOfFour(values, RegisterRules);
  }

  /** A non-blank email that the pattern rejects is reported with the table's
      own message rather than the default "Invalid email". */
  lemma RegisterEmailMessage(values: map<string, string>)
    requires !IsBlank(ValueOf(values, "email")) && !IsEmail(ValueOf(values, "email"))
    ensures "email" in ValidationErrors(values, RegisterRules)
    ensures ValidationErrors(values, RegisterRules)["email"] == EmailMessage
  {
    assert RegisterRules[1] == EmailRule;
    RegisterFieldsDistinct();
    assert Fails(values, EmailRule);
    ValidationErrorAt(values, RegisterRules, 1);
  }

  /** The table's field names are distinct (they differ in length). */
  lemma RegisterFieldsDistinct()
    ensures forall a, b :: 0 <= a < b < |RegisterRules| ==> RegisterRules[a].field != RegisterRules[b].field
  {
    assert |RegisterRules[0].field| == 4 && |RegisterRules[1].field| == 5;
    assert |RegisterRules[2].field| == 8 && |RegisterRules[3].field| == 15;
  }

  /** The effect that sends an already signed-in patient to the dashboard. */
  function RegisterRedirect(isAuthenticated: bool): (target: Option<string>)
    ensures target.Some? <==> isAuthenticated
    ensures target.Some? ==> target.value == "/dashboard"
  {
    if isAuthenticated then Some("/dashboard") else None
  }

  class RegisterPage {
    const form: FormHook
    /** The page's own error map: the one the form displays. */
    var errors: map<string, string>

    constructor ()
      ensures fresh(form)
      ensures form.initialState == RegisterInitial && form.values == RegisterInitial
      ensures form.errors == map[] && errors == map[]
    {
      form := new FormHook(RegisterInitial);
      errors := map[];
    }

    /** `handleSubmit`, with `registerSucceeds` standing for the awaited result
        of `register`. Returns the payload handed to `register` (if it was
        called) and the navigation target (if any). */
    method HandleSubmit(registerSucceeds: bool) returns (sent: Option<map<string, string>>, nav: Option<string>)
      modifies this, form
      // a mismatch writes only the page's confirmPassword error and stops
      ensures PasswordsDiffer(old(form.values)) ==>
                && errors == old(errors)["confirmPassword" := MismatchMessage]
                && form.values == old(form.values) && form.errors == old(form.errors)
                && sent == None && nav == None
      // otherwise validate runs; on failure its errors stay in the hook and the page map is untouched
      ensures !PasswordsDiffer(old(form.values)) && ValidationErrors(old(form.values), RegisterRules) != map[] ==>
                && form.errors == ValidationErrors(old(form.values), RegisterRules)
                && errors == old(errors) && form.values == old(form.values)
                && sent == None && nav == None
      // on success the page errors are cleared and register receives the values minus confirmPassword
      ensures !PasswordsDiffer(old(form.values)) && ValidationErrors(old(form.values), RegisterRules) == map[] ==>
                && errors == map[] && form.errors == map[]
                && sent == Some(RegisterPayload(old(form.values)))
                && (registerSucceeds ==> form.values == RegisterInitial && nav == Some("/dashboard"))
                && (!registerSucceeds ==> form.values == old(form.values) && nav == None)
      requires form.initialState == RegisterInitial
    {
      sent, nav := None, None;
      if PasswordsDiffer(form.values) {
        errors := errors["confirmPassword" := MismatchMessage];
        return;
      }
      var ok := form.Validate(RegisterRules);
      if ok {
        var userData := RegisterPayload(form.values);
        errors := map[];
        sent := Some(userData);
        if registerSucceeds {
          form.ResetForm();
          nav := Some("/dashboard");
        }
      }
    }
  }
}
