/**
 * A small interpreter for the declarative field rules the two forms use:
 * string length bounds, the ten-digit pattern, an e-mail format check, enums,
 * optional fields and the "or the empty string" alternative. A form object
 * is accepted only when every field of the schema accepts its value; the
 * error set lists every failing field at once.
 */
module Schema {

  /** A raw field value: `undefined`, or the string the input holds. */
  datatype Value = Undefined | Text(s: string)

  /** Refinements on a string (`.min`, `.max`, `.regex(/^[0-9]{10}$/)`, `.email`). */
  datatype Check = MinLength(n: nat) | MaxLength(n: nat) | TenDigits | EmailFormat

  /** A field rule. */
  datatype Rule =
    | Str(checks: seq<Check>)
    | Enum(options: set<string>)
    | Optional(inner: Rule)
    | OrLiteral(inner: Rule, literal: string)

  /** Form values by field name; a missing name reads as `undefined`. */
  type FormValues = map<string, Value>

  type ObjectSchema = map<string, Rule>

  function Get(values: FormValues, name: string): Value {
    if name in values then values[name] else Undefined
  }

  predicate IsDigit(c: char) {
    '0' <= c <= '9'
  }

  /** `/^[0-9]{10}$/`: exactly ten characters, all decimal digits. */
  predicate IsTenDigits(s: string) {
    |s| == 10 && forall i :: 0 <= i < |s| ==> IsDigit(s[i])
  }

  /** Whether string `s` passes one refinement; `isEmail` stands for the library's address check. */
  predicate Holds(check: Check, s: string, isEmail: string -> bool) {
    match check
    case MinLength(n) => |s| >= n
    case MaxLength(n) => |s| <= n
    case TenDigits => IsTenDigits(s)
    case EmailFormat => isEmail(s)
  }

  predicate Accepts(rule: Rule, v: Value, isEmail: string -> bool)
    decreases rule
  {
    match rule
    case Str(checks) => v.Text? && forall k :: 0 <= k < |checks| ==> Holds(checks[k], v.s, isEmail)
    case Enum(options) => v.Text? && v.s in options
    case Optional(inner) => v.Undefined? || Accepts(inner, v, isEmail)
    case OrLiteral(inner, literal) => Accepts(inner, v, isEmail) || v == Text(literal)
  }

  /** A string rule with one refinement accepts exactly the strings passing it. */
  lemma AcceptsOneCheck(c: Check, v: Value, isEmail: string -> bool)
    ensures Accepts(Str([c]), v, isEmail) <==> v.Text? && Holds(c, v.s, isEmail)
  {
    assert [c][0] == c;
  }

  /** A string rule with two refinements accepts exactly the strings passing both. */
  lemma AcceptsTwoChecks(c1: Check, c2: Check, v: Value, isEmail: string -> bool)
    ensures Accepts(Str([c1, c2]), v, isEmail) <==> v.Text? && Holds(c1, v.s, isEmail) && Holds(c2, v.s, isEmail)
  {
    assert [c1, c2][0] == c1 && [c1, c2][1] == c2;
  }

  /** The object check succeeds: every field of the schema accepts its value. */
  predicate Passes(schema: ObjectSchema, values: FormValues, isEmail: string -> bool) {
    forall name :: name in schema ==> Accepts(schema[name], Get(values, name), isEmail)
  }

  /** The names of all failing fields, reported together rather than stopping at the first. */
  function Errors(schema: ObjectSchema, values: FormValues, isEmail: string -> bool): (e: set<string>)
    ensures e <= schema.Keys
    ensures forall name :: name in schema && !Accepts(schema[name], Get(values, name), isEmail) ==> name in e
    ensures forall name :: name in e ==> !Accepts(schema[name], Get(values, name), isEmail)
  {
    set name | name in schema && !Accepts(schema[name], Get(values, name), isEmail)
  }

  /** What a click on a form's submit button leads to. */
  datatype SubmitOutcome<R> =
    | Refused                     // the button is disabled while a submission is in flight
    | Rejected(errors: set<string>) // validation failed; nothing is sent
    | Started(data: R)            // validation passed; the handler has taken the data

  /** The object check succeeds exactly when the error set is empty. */
  lemma PassesIffNoErrors(schema: ObjectSchema, values: FormValues, isEmail: string -> bool)
    ensures Passes(schema, values, isEmail) <==> Errors(schema, values, isEmail) == {}
  {
    if !Passes(schema, values, isEmail) {
      var name :| name in schema && !Accepts(schema[name], Get(values, name), isEmail);
      assert name in Errors(schema, values, isEmail);
    }
  }

  /** Fields outside the schema are ignored: changing them changes no verdict. */
  lemma ExtraFieldsIgnored(schema: ObjectSchema, values: FormValues, name: string, v: Value, isEmail: string -> bool)
    requires name !in schema
    ensures Errors(schema, values[name := v], isEmail) == Errors(schema, values, isEmail)
  {
    forall n | n in schema
      ensures Get(values[name := v], n) == Get(values, n)
    {
    }
  }
}
