/** Validation rules and the validator that runs them (`src/validation.rs`). */
module Validation {
  import opened Wrappers
  import opened Errors
  import Json
  import Records

  /** The shipped rules; a custom `ValidationRule` implementation is not part of this model. */
  datatype Rule =
    | RequiredField(field: string)
    | NonEmptyString(field: string)
    | NumericRange(field: string, min: Option<real>, max: Option<real>)

  function Violation(field: string, rule: string, message: string): Outcome<Error> {
    Fail(Validation(ValidationError(field, rule, message)))
  }

  /** `RequiredFieldRule`: the payload must be an object with the field. */
  function CheckRequired(field: string, r: Records.Record): (o: Outcome<Error>)
    ensures o.Fail? <==> !(r.value.Obj? && field in r.value.fields)
    ensures o.Fail? ==> o.error.Validation? && o.error.detail.field == field && o.error.detail.rule == "required"
  {
    if Json.Get(r.value, field).None? then Violation(field, "required", "Field '" + field + "' is required")
    else Pass
  }

  /** `NonEmptyStringRule`: fails only when the field is present and is the empty string. */
  function CheckNonEmpty(field: string, r: Records.Record): (o: Outcome<Error>)
    ensures o.Fail? <==> r.value.Obj? && field in r.value.fields && r.value.fields[field] == Json.Str("")
    ensures o.Fail? ==> o.error.Validation? && o.error.detail.field == field && o.error.detail.rule == "non_empty"
  {
    match Json.Get(r.value, field)
    case Some(Str(s)) =>
      if |s| == 0 then Violation(field, "non_empty", "Field '" + field + "' cannot be empty") else Pass
    case _ => Pass
  }

  /**
   * `NumericRangeRule`: a present number below the minimum fails with "min_value" (checked
   * first), one above the maximum with "max_value"; an absent or non-numeric field passes.
   */
  function CheckRange(field: string, min: Option<real>, max: Option<real>, r: Records.Record): (o: Outcome<Error>)
    ensures (match Json.Get(r.value, field)
             case Some(Num(x)) => o.Pass? <==> (min.None? || x >= min.value) && (max.None? || x <= max.value)
             case _ => o.Pass?)
    ensures o.Fail? ==> o.error.Validation? && o.error.detail.field == field
    ensures o.Fail? ==> (o.error.detail.rule == "min_value" <==> min.Some? && r.value.fields[field].n < min.value)
    ensures o.Fail? ==> o.error.detail.rule in {"min_value", "max_value"}
  {
    match Json.Get(r.value, field)
    case Some(Num(x)) =>
      if min.Some? && x < min.value then Violation(field, "min_value", "Field '" + field + "' must be at least ")
      else if max.Some? && x > max.value then Violation(field, "max_value", "Field '" + field + "' must be at most ")
      else Pass
    case _ => Pass
  }

  /** What one rule says about a record. */
  function Check(rule: Rule, r: Records.Record): (o: Outcome<Error>)
    ensures o.Fail? ==> o.error.Validation? && o.error.detail.field == rule.field
  {
    match rule
    case RequiredField(f) => CheckRequired(f, r)
    case NonEmptyString(f) => CheckNonEmpty(f, r)
    case NumericRange(f, lo, hi) => CheckRange(f, lo, hi, r)
  }

  /** The rules in order; the first failing rule's error, if any. */
  function CheckAll(rules: seq<Rule>, r: Records.Record): (o: Outcome<Error>)
    ensures o.Fail? ==> o.error.Validation?
  {
    if rules == [] then Pass
    else match Check(rules[0], r)
      case Fail(e) => Fail(e)
      case Pass => CheckAll(rules[1..], r)
  }

  /** The rules pass together exactly when each one passes. */
  lemma {:induction false} CheckAllPassIff(rules: seq<Rule>, r: Records.Record)
    ensures CheckAll(rules, r).Pass? <==> forall i :: 0 <= i < |rules| ==> Check(rules[i], r).Pass?
  {
    if rules != [] {
      CheckAllPassIff(rules[1..], r);
      assert forall i :: 1 <= i < |rules| ==> rules[1..][i - 1] == rules[i];
    }
  }

  /** A failure is the error of the first failing rule: every earlier rule passed. */
  lemma {:induction false} CheckAllFirstFailure(rules: seq<Rule>, r: Records.Record)
    requires CheckAll(rules, r).Fail?
    ensures exists i :: 0 <= i < |rules| && Check(rules[i], r) == CheckAll(rules, r)
                        && forall j :: 0 <= j < i ==> Check(rules[j], r).Pass?
  {
    if Check(rules[0], r).Pass? {
      CheckAllFirstFailure(rules[1..], r);
      var i :| 0 <= i < |rules[1..]| && Check(rules[1..][i], r) == CheckAll(rules[1..], r)
               && forall j :: 0 <= j < i ==> Check(rules[1..][j], r).Pass?;
      assert Check(rules[i + 1], r) == CheckAll(rules, r);
      forall j | 0 <= j < i + 1 ensures Check(rules[j], r).Pass? {
        if j > 0 { assert rules[j] == rules[1..][j - 1]; }
      }
    } else {
      assert Check(rules[0], r) == CheckAll(rules, r);
    }
  }

  /** `Validator`: an ordered list of rules that grows by `add_rule`. */
  class Validator {
    var rules: seq<Rule>

    /** `Validator::new`: no rules, so every record is accepted. */
    constructor ()
      ensures rules == []
    {
      rules := [];
    }

    /** `add_rule`: the rule goes last, so the rule count grows by one. */
    method AddRule(rule: Rule)
      modifies this
      ensures rules == old(rules) + [rule]
      ensures RuleCount() == old(RuleCount()) + 1
    {
      rules := rules + [rule];
    }

    /** `rule_count`. */
    function RuleCount(): (n: nat)
      reads this
      ensures n == |rules|
    {
      |rules|
    }

    /** `validate`: runs the rules in order and stops at the first failure. */
    method Validate(r: Records.Record) returns (o: Outcome<Error>)
      ensures o == CheckAll(rules, r)
      ensures o.Pass? <==> forall i :: 0 <= i < |rules| ==> Check(rules[i], r).Pass?
    {
      CheckAllPassIff(rules, r);
      var i := 0;
      while i < |rules|
        invariant 0 <= i <= |rules|
        invariant CheckAll(rules, r) == CheckAll(rules[i..], r)
      {
        assert rules[i..][1..] == rules[i + 1..];
        var outcome := Check(rules[i], r);
        if outcome.Fail? {
          return outcome;
        }
        i := i + 1;
      }
      return Pass;
    }
  }

  /** A validator without rules accepts every record. */
  lemma EmptyAcceptsAll(r: Records.Record)
    ensures CheckAll([], r) == Pass
  {
  }
}
