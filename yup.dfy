/**
 * The part of the Yup schema library that the application form's rule
 * table is written in: string, number, date and array schemas, the tests
 * `required`, `matches`, `email`, `url` and `min`, and how one field's
 * schema turns a value into at most one error message.
 *
 * Yup's own regular expressions and JavaScript casts are not part of this
 * model; they are the fields of a `Coercions` value that every check takes
 * as a parameter.
 */
module Yup {

  datatype Option<+T> = None | Some(value: T)

  /** A value as the schema receives it: absent (JavaScript `undefined`),
      a text, or a list of texts. */
  datatype Input = Absent | Text(s: string) | Items(xs: seq<string>)

  /** The type a schema casts its value to. `MixedKind` casts nothing. */
  datatype Kind = StringKind | NumberKind | DateKind | ArrayKind | MixedKind

  /** What Yup decides by means this model leaves abstract. */
  datatype Coercions = Coercions(
    isEmail: string -> bool,               // Yup's e-mail regular expression
    isUrl: string -> bool,                 // Yup's URL regular expression
    toNumber: string -> Option<real>,      // the number cast; None when it yields NaN
    isDate: string -> bool,                // the date cast yields a valid Date
    notType: (string, Kind, Input) -> string)  // default type-error text for (path, type, value)

  /** One test of a schema, with the message it reports when it fails. */
  datatype Test =
    | Required(message: string)
    | Matches(message: string)             // `matches(/^[0-9]+$/, message)`
    | EmailFormat(message: string)
    | UrlFormat(message: string)
    | Min(bound: int, message: string)

  /** A field schema: the type it casts to, its custom type-error message
      (None keeps Yup's default) and its tests in declaration order. */
  datatype Schema = Schema(kind: Kind, typeError: Option<string>, tests: seq<Test>)

  /** The regular expression /^[0-9]+$/: one or more decimal digits and nothing else. */
  predicate AllDigits(s: string) {
    |s| > 0 && forall i :: 0 <= i < |s| ==> '0' <= s[i] <= '9'
  }

  /** Whether the value survives the schema's cast. An absent value always does. */
  predicate TypeOk(c: Coercions, kind: Kind, v: Input) {
    match v
    case Absent => true
    case Text(s) => (
      match kind
      case StringKind => true
      case NumberKind => c.toNumber(s).Some?
      case DateKind => c.isDate(s)
      case ArrayKind => false
      case MixedKind => true)
    case Items(_) => kind == ArrayKind || kind == MixedKind
  }

  /** Whether test `t` of a schema of type `kind` fails on a value that passed the cast.
      `matches` rejects the empty text; `email` and `url` skip it; every test but
      `required` passes an absent value. */
  predicate Fails(c: Coercions, kind: Kind, t: Test, v: Input) {
    match t
    case Required(_) => (
      match v
      case Absent => true
      case Text(s) => kind == StringKind && s == ""
      case Items(xs) => kind == ArrayKind && xs == [])
    case Matches(_) => v.Text? && !AllDigits(v.s)
    case EmailFormat(_) => v.Text? && v.s != "" && !c.isEmail(v.s)
    case UrlFormat(_) => v.Text? && v.s != "" && !c.isUrl(v.s)
    case Min(b, _) =>
      match v
      case Absent => false
      case Text(s) =>
        (kind == StringKind && |s| < b) ||
        (kind == NumberKind && c.toNumber(s).Some? && c.toNumber(s).value < b as real)
      case Items(xs) => kind == ArrayKind && |xs| < b
  }

  /** The position of the first failing test, if any. */
  function FirstFailure(c: Coercions, kind: Kind, tests: seq<Test>, v: Input): (r: Option<nat>)
    ensures r.Some? ==> r.value < |tests| && Fails(c, kind, tests[r.value], v)
    ensures r.Some? ==> forall j :: 0 <= j < r.value ==> !Fails(c, kind, tests[j], v)
    ensures r.None? <==> forall j :: 0 <= j < |tests| ==> !Fails(c, kind, tests[j], v)
    decreases |tests|
  {
    if tests == [] then None
    else if Fails(c, kind, tests[0], v) then Some(0)
    else
      match FirstFailure(c, kind, tests[1..], v)
      case None => None
      case Some(i) => Some(i + 1)
  }

  /** The message reported when the cast fails. */
  function TypeMessage(c: Coercions, path: string, schema: Schema, v: Input): string {
    match schema.typeError
    case Some(m) => m
    case None => c.notType(path, schema.kind, v)
  }

  /**
   * The error the form shows for one field: a failed cast stops validation
   * with the type-error message; otherwise the first failing test in
   * declaration order wins, as Formik keeps only the first error of a path.
   */
  function Check(c: Coercions, path: string, schema: Schema, v: Input): (r: Option<string>)
    ensures !TypeOk(c, schema.kind, v) ==> r == Some(TypeMessage(c, path, schema, v))
    ensures TypeOk(c, schema.kind, v) ==>
      (r.None? <==> forall j :: 0 <= j < |schema.tests| ==> !Fails(c, schema.kind, schema.tests[j], v))
    ensures TypeOk(c, schema.kind, v) && r.Some? ==>
      exists i :: 0 <= i < |schema.tests| && Fails(c, schema.kind, schema.tests[i], v) &&
        r.value == schema.tests[i].message &&
        forall j :: 0 <= j < i ==> !Fails(c, schema.kind, schema.tests[j], v)
  {
    if !TypeOk(c, schema.kind, v) then Some(TypeMessage(c, path, schema, v))
    else
      match FirstFailure(c, schema.kind, schema.tests, v)
      case None => None
      case Some(i) => Some(schema.tests[i].message)
  }

  /** `Check` on a schema with no tests: only the cast can fail. */
  lemma CheckNoTests(c: Coercions, path: string, kind: Kind, te: Option<string>, v: Input)
    ensures Check(c, path, Schema(kind, te, []), v) ==
      if TypeOk(c, kind, v) then None else Some(TypeMessage(c, path, Schema(kind, te, []), v))
  {
  }

  /** `Check` on a schema with one test. */
  lemma CheckOneTest(c: Coercions, path: string, kind: Kind, te: Option<string>, t: Test, v: Input)
    ensures Check(c, path, Schema(kind, te, [t]), v) ==
      if !TypeOk(c, kind, v) then Some(TypeMessage(c, path, Schema(kind, te, [t]), v))
      else if Fails(c, kind, t, v) then Some(t.message)
      else None
  {
  }

  /** `Check` on a schema with two tests: the first declared is reported first. */
  lemma CheckTwoTests(c: Coercions, path: string, kind: Kind, te: Option<string>, t0: Test, t1: Test, v: Input)
    ensures Check(c, path, Schema(kind, te, [t0, t1]), v) ==
      if !TypeOk(c, kind, v) then Some(TypeMessage(c, path, Schema(kind, te, [t0, t1]), v))
      else if Fails(c, kind, t0, v) then Some(t0.message)
      else if Fails(c, kind, t1, v) then Some(t1.message)
      else None
  {
    var tests := [t0, t1];
    assert tests[0] == t0 && tests[1] == t1;
  }
}
