/**
 * The `useForm` hook (frontend/src/hooks/useForm.jsx): a map of field values,
 * a map of field errors, and a rule engine that checks each field against
 * `required`, then `minLength`, then `pattern`, the first failing rule giving
 * the field's one error message.
 */
module UseForm {
  import opened Base
  import opened Text
  import opened Patterns

  /** One entry of a validation-rule table. `minLength == 0` stands for an absent
      (falsy) `minLength`, `message == ""` for an absent (falsy) `message`. */
  datatype Rule = Rule(required: bool, minLength: nat, pattern: Option<Pattern>, message: string)

  /** A field name with its rule; a rule table is a sequence of these in the
      order `Object.keys` lists them. */
  datatype FieldRule = FieldRule(field: string, rule: Rule)

  /** `values[field] || ""`. */
  function ValueOf(values: map<string, string>, field: string): (v: string)
    ensures field !in values ==> v == ""
    ensures field in values ==> v == values[field]
  {
    if field in values then values[field] else ""
  }

  /** Some check of `rule` rejects `value`: a blank required value, a value
      shorter than a truthy `minLength`, or a value the pattern rejects. */
  predicate Violates(rule: Rule, value: string) {
    || (rule.required && IsBlank(value))
    || (0 < rule.minLength && |value| < rule.minLength)
    || (rule.pattern.Some? && !Matches(rule.pattern.value, value))
  }

  /** The error the rule engine records for one field, if any. */
  function FieldError(field: string, value: string, rule: Rule): (r: Option<string>)
    // required is tested first: a blank required value gets "<field> is required"
    ensures rule.required && IsBlank(value) ==> r == Some(field + " is required")
    // minLength is tested only when required passed, and compares the untrimmed length
    ensures !(rule.required && IsBlank(value)) && 0 < rule.minLength && |value| < rule.minLength ==>
              r == Some(field + " must be at least " + NatToString(rule.minLength) + " characters")
    // the pattern is tested only when both earlier rules passed
    ensures r.Some? && rule.pattern.Some? && Matches(rule.pattern.value, value) ==>
              (rule.required && IsBlank(value)) || (0 < rule.minLength && |value| < rule.minLength)
    ensures r.Some? && !(rule.required && IsBlank(value)) && !(0 < rule.minLength && |value| < rule.minLength) ==>
              r == Some(if rule.message != "" then rule.message else "Invalid " + field)
    // no rule fails: no error
    ensures r.None? <==> !Violates(rule, value)
  {
    if rule.required && IsBlank(value) then
      Some(field + " is required")
    else if 0 < rule.minLength && |value| < rule.minLength then
      Some(field + " must be at least " + NatToString(rule.minLength) + " characters")
    else if rule.pattern.Some? && !Matches(rule.pattern.value, value) then
      Some(if rule.message != "" then rule.message else "Invalid " + field)
    else
      None
  }

  /** Whether the rule of `fr` fails on the value its field currently holds. */
  predicate Fails(values: map<string, string>, fr: FieldRule) {
    Violates(fr.rule, ValueOf(values, fr.field))
  }

  /** The error map `validate` builds: each rule is checked in table order and
      a failing one writes its message under its field. */
  function ValidationErrors(values: map<string, string>, rules: seq<FieldRule>): map<string, string>
  {
    if |rules| == 0 then map[]
    else
      var prev := ValidationErrors(values, rules[..|rules| - 1]);
      var fr := rules[|rules| - 1];
      match FieldError(fr.field, ValueOf(values, fr.field), fr.rule)
      case None => prev
      case Some(msg) => prev[fr.field := msg]
  }

  /** The error map holds exactly the fields of the table that have a failing rule. */
  lemma {:induction false} ValidationErrorsKeys(values: map<string, string>, rules: seq<FieldRule>, k: string)
    ensures k in ValidationErrors(values, rules) <==>
              exists i :: 0 <= i < |rules| && rules[i].field == k && Fails(values, rules[i])
  {
    if |rules| > 0 {
      var last := |rules| - 1;
      var init := rules[..last];
      var fr := rules[last];
      var prev := ValidationErrors(values, init);
      ValidationErrorsKeys(values, init, k);
      // one step of the table: the last rule adds its field exactly when it fails
      assert k in ValidationErrors(values, rules) <==> k in prev || (fr.field == k && Fails(values, fr)) by {
        assert ValidationErrors(values, rules) ==
          match FieldError(fr.field, ValueOf(values, fr.field), fr.rule)
          case None => prev
          case Some(msg) => prev[fr.field := msg];
      }
      if k in prev {
        var i :| 0 <= i < |init| && init[i].field == k && Fails(values, init[i]);
        assert rules[i] == init[i];
      }
      if exists i :: 0 <= i < |rules| && rules[i].field == k && Fails(values, rules[i]) {
        var i :| 0 <= i < |rules| && rules[i].field == k && Fails(values, rules[i]);
        if i < last {
          assert init[i] == rules[i];
        }
      }
    }
  }

  /** `validate` succeeds exactly when no field of the table fails its rule. */
  lemma ValidationErrorsEmpty(values: map<string, string>, rules: seq<FieldRule>)
    ensures ValidationErrors(values, rules) == map[] <==>
              forall i :: 0 <= i < |rules| ==> !Fails(values, rules[i])
  {
    var errs := ValidationErrors(values, rules);
    if errs == map[] {
      forall i | 0 <= i < |rules| ensures !Fails(values, rules[i]) {
        ValidationErrorsKeys(values, rules, rules[i].field);
      }
    } else {
      var k :| k in errs;
      ValidationErrorsKeys(values, rules, k);
    }
  }

  /** A four-entry table passes exactly when each of its four rules does. */
  lemma AllOfFour(values: map<string, string>, rules: seq<FieldRule>)
    requires |rules| == 4
    ensures (forall i :: 0 <= i < |rules| ==> !Fails(values, rules[i])) <==>
              !Fails(values, rules[0]) && !Fails(values, rules[1]) && !Fails(values, rules[2]) && !Fails(values, rules[3])
  {
  }

  /** A three-entry table passes exactly when each of its three rules does. */
  lemma AllOfThree(values: map<string, string>, rules: seq<FieldRule>)
    requires |rules| == 3
    ensures (forall i :: 0 <= i < |rules| ==> !Fails(values, rules[i])) <==>
              !Fails(values, rules[0]) && !Fails(values, rules[1]) && !Fails(values, rules[2])
  {
  }

  /** Extending a table with more rules: the whole passes exactly when both parts do. */
  lemma AllOfAppend(values: map<string, string>, xs: seq<FieldRule>, ys: seq<FieldRule>)
    ensures (forall i :: 0 <= i < |xs + ys| ==> !Fails(values, (xs + ys)[i])) <==>
              (forall i :: 0 <= i < |xs| ==> !Fails(values, xs[i])) && (forall i :: 0 <= i < |ys| ==> !Fails(values, ys[i]))
  {
    if forall i :: 0 <= i < |xs + ys| ==> !Fails(values, (xs + ys)[i]) {
      forall i | 0 <= i < |xs| ensures !Fails(values, xs[i]) {
        assert (xs + ys)[i] == xs[i];
      }
      forall i | 0 <= i < |ys| ensures !Fails(values, ys[i]) {
        assert (xs + ys)[|xs| + i] == ys[i];
      }
    }
    if (forall i :: 0 <= i < |xs| ==> !Fails(values, xs[i])) && (forall i :: 0 <= i < |ys| ==> !Fails(values, ys[i])) {
      forall i | 0 <= i < |xs + ys| ensures !Fails(values, (xs + ys)[i]) {
        if i < |xs| {
          assert (xs + ys)[i] == xs[i];
        } else {
          assert (xs + ys)[i] == ys[i - |xs|];
        }
      }
    }
  }

  /** The error map of an extended table is empty exactly when the original
      table's is and every added rule passes. */
  lemma ValidationErrorsAppend(values: map<string, string>, xs: seq<FieldRule>, ys: seq<FieldRule>)
    ensures ValidationErrors(values, xs + ys) == map[] <==>
              ValidationErrors(values, xs) == map[] && forall i :: 0 <= i < |ys| ==> !Fails(values, ys[i])
  {
    ValidationErrorsEmpty(values, xs + ys);
    ValidationErrorsEmpty(values, xs);
    AllOfAppend(values, xs, ys);
  }

  /** The last rule of a table, when it fails, leaves its own message under its
      field, whatever came before it. */
  lemma ValidationErrorLast(values: map<string, string>, rules: seq<FieldRule>)
    requires |rules| > 0 && Fails(values, rules[|rules| - 1])
    ensures rules[|rules| - 1].field in ValidationErrors(values, rules)
    ensures ValidationErrors(values, rules)[rules[|rules| - 1].field] ==
              FieldError(rules[|rules| - 1].field, ValueOf(values, rules[|rules| - 1].field), rules[|rules| - 1].rule).value
  {
  }

  /** In a table whose field names are distinct (as the keys of a JavaScript
      object are), a failing field carries its own rule's message. */
  lemma {:induction false} ValidationErrorAt(values: map<string, string>, rules: seq<FieldRule>, i: nat)
    requires i < |rules|
    requires forall a, b :: 0 <= a < b < |rules| ==> rules[a].field != rules[b].field
    requires Fails(values, rules[i])
    ensures rules[i].field in ValidationErrors(values, rules)
    ensures ValidationErrors(values, rules)[rules[i].field] ==
              FieldError(rules[i].field, ValueOf(values, rules[i].field), rules[i].rule).value
  {
    var last := |rules| - 1;
    var init := rules[..last];
    var fr := rules[last];
    var prev := ValidationErrors(values, init);
    assert ValidationErrors(values, rules) ==
      match FieldError(fr.field, ValueOf(values, fr.field), fr.rule)
      case None => prev
      case Some(msg) => prev[fr.field := msg];
    if i < last {
      assert init[i] == rules[i];
      forall a, b | 0 <= a < b < |init| ensures init[a].field != init[b].field {
        assert init[a] == rules[a] && init[b] == rules[b];
      }
      ValidationErrorAt(values, init, i);
      assert fr.field != rules[i].field;
    }
  }

  class FormHook {
    const initialState: map<string, string>
    var values: map<string, string>
    var errors: map<string, string>

    constructor (initialState: map<string, string>)
      ensures this.initialState == initialState
      ensures values == initialState && errors == map[]
    {
      this.initialState := initialState;
      values := initialState;
      errors := map[];
    }

    /** `handleChange`: stores the typed value under the input's name and blanks
        that field's error if it had a (truthy) one. */
    method HandleChange(name: string, value: string)
      modifies this
      ensures values == old(values)[name := value]
      ensures errors == if name in old(errors) && old(errors)[name] != "" then old(errors)[name := ""] else old(errors)
      ensures forall k :: k != name ==> ValueOf(values, k) == ValueOf(old(values), k)
      ensures forall k :: k != name ==> (k in errors <==> k in old(errors))
    {
      values := values[name := value];
      if name in errors && errors[name] != "" {
        errors := errors[name := ""];
      }
    }

    /** `validate`: runs the rule table over the current values, replaces the
        error map wholesale with the errors found, and reports whether none was. */
    method Validate(rules: seq<FieldRule>) returns (isValid: bool)
      modifies this`errors
      ensures errors == ValidationErrors(values, rules)
      ensures isValid <==> errors == map[]
      ensures isValid <==> forall i :: 0 <= i < |rules| ==> !Fails(values, rules[i])
    {
      var newErrors := map[];
      isValid := true;
      for i := 0 to |rules|
        invariant newErrors == ValidationErrors(values, rules[..i])
        invariant isValid <==> forall j :: 0 <= j < i ==> !Fails(values, rules[j])
      {
        var fr := rules[i];
        var err := FieldError(fr.field, ValueOf(values, fr.field), fr.rule);
        if err.Some? {
          newErrors := newErrors[fr.field := err.value];
          isValid := false;
        }
        assert rules[..i + 1][..i] == rules[..i];
      }
      assert rules[..|rules|] == rules;
      errors := newErrors;
      ValidationErrorsEmpty(values, rules);
    }

    /** `resetForm`: back to the initial values, with no errors. */
    method ResetForm()
      modifies this
      ensures values == initialState && errors == map[]
    {
      values := initialState;
      errors := map[];
    }
  }
}
