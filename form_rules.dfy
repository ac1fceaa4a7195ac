/**
 * The part of Yup the sign-in and sign-up forms use: string fields checked by
 * a list of rules, the form valid when every rule of every field passes. The
 * email format check is a parameter (`isEmail`); its pattern is not modelled.
 */
module FormRules {

  datatype Field = Name | Email | Password | ConfirmPassword

  /** What the user typed in each field; the forms start with every field empty. */
  datatype FormValues = FormValues(name: string, email: string, password: string, confirmPassword: string)

  function Get(v: FormValues, f: Field): string {
    match f
    case Name => v.name
    case Email => v.email
    case Password => v.password
    case ConfirmPassword => v.confirmPassword
  }

  /**
   * `required()`, `email()`, `min(n)` and `oneOf([ref(field)])` on a string.
   */
  datatype Rule = Required | EmailFormat | MinLength(n: nat) | SameAs(other: Field)

  /**
   * Whether a rule accepts a field's value. `required` refuses the empty string;
   * `email()` lets the empty string through (it is left to `required`);
   * `min(n)` counts the empty string as length 0; `oneOf` wants exactly the
   * other field's value.
   */
  predicate Passes(r: Rule, value: string, v: FormValues, isEmail: string -> bool): (ok: bool)
    ensures value == "" ==>
              (ok <==> !r.Required? && (r.MinLength? ==> r.n == 0) && (r.SameAs? ==> Get(v, r.other) == ""))
    ensures value != "" && r.Required? ==> ok
    ensures value != "" && r.EmailFormat? ==> (ok <==> isEmail(value))
  {
    match r
    case Required => value != ""
    case EmailFormat => value == "" || isEmail(value)
    case MinLength(n) => |value| >= n
    case SameAs(other) => value == Get(v, other)
  }

  /** A field's rules, all of which must pass. */
  type FieldRules = (Field, seq<Rule>)

  predicate FieldPasses(rules: FieldRules, v: FormValues, isEmail: string -> bool) {
    forall i :: 0 <= i < |rules.1| ==> Passes(rules.1[i], Get(v, rules.0), v, isEmail)
  }

  /** The fields whose rules do not all pass, in schema order (the keys of Formik's `errors`). */
  function Failing(schema: seq<FieldRules>, v: FormValues, isEmail: string -> bool): (failing: seq<Field>)
    ensures |failing| <= |schema|
    ensures failing == [] <==> forall i :: 0 <= i < |schema| ==> FieldPasses(schema[i], v, isEmail)
    ensures forall i :: 0 <= i < |schema| && !FieldPasses(schema[i], v, isEmail) ==> schema[i].0 in failing
    ensures forall f :: f in failing ==>
              exists i :: 0 <= i < |schema| && schema[i].0 == f && !FieldPasses(schema[i], v, isEmail)
  {
    if schema == [] then []
    else
      var rest := Failing(schema[1..], v, isEmail);
      assert forall i :: 1 <= i < |schema| ==> schema[i] == schema[1..][i - 1];
      if FieldPasses(schema[0], v, isEmail) then rest else [schema[0].0] + rest
  }

  /** Formik submits only when no field fails. */
  predicate Valid(schema: seq<FieldRules>, v: FormValues, isEmail: string -> bool) {
    Failing(schema, v, isEmail) == []
  }
}
