/**
 * The job-application form: its value record, the validation rule table
 * (one Yup schema per field, three of them conditional on `position`),
 * the error map Formik derives from it, and which fields the render shows.
 */
module Form {
  import opened Yup

  /** The nine fields of the form, in the order the rule table lists them. */
  datatype Field =
    | FullName | Email | PhoneNumber | Position | RelevantExperience
    | PortfolioUrl | ManagementExperience | AdditionalSkills | InterviewTime

  const AllFields: set<Field> := {FullName, Email, PhoneNumber, Position, RelevantExperience,
                                  PortfolioUrl, ManagementExperience, AdditionalSkills, InterviewTime}

  /** The form's value record. Every input is a text box or a select, so every
      value is a string; the skills checkboxes collect a list. */
  datatype Values = Values(
    fullName: string,
    email: string,
    phoneNumber: string,
    position: string,
    relevantExperience: string,
    portfolioUrl: string,
    managementExperience: string,
    additionalSkills: seq<string>,
    interviewTime: string)

  /** The values the form starts with. */
  function InitialValues(): Values {
    Values("", "", "", "", "", "", "", [], "")
  }

  /** The key of the field in the value record, which is also Yup's path in messages. */
  function Name(f: Field): string {
    match f
    case FullName => "fullName"
    case Email => "email"
    case PhoneNumber => "phoneNumber"
    case Position => "position"
    case RelevantExperience => "relevantExperience"
    case PortfolioUrl => "portfolioUrl"
    case ManagementExperience => "managementExperience"
    case AdditionalSkills => "additionalSkills"
    case InterviewTime => "interviewTime"
  }

  /** Formik hands an empty text to the schema as `undefined`. */
  function AsInput(s: string): Input {
    if s == "" then Absent else Text(s)
  }

  /** The value of field `f` as the record holds it. */
  function RawValue(v: Values, f: Field): Input {
    match f
    case FullName => Text(v.fullName)
    case Email => Text(v.email)
    case PhoneNumber => Text(v.phoneNumber)
    case Position => Text(v.position)
    case RelevantExperience => Text(v.relevantExperience)
    case PortfolioUrl => Text(v.portfolioUrl)
    case ManagementExperience => Text(v.managementExperience)
    case AdditionalSkills => Items(v.additionalSkills)
    case InterviewTime => Text(v.interviewTime)
  }

  /** The value of field `f` as the schema sees it. */
  function Prepare(v: Values, f: Field): Input {
    match f
    case FullName => AsInput(v.fullName)
    case Email => AsInput(v.email)
    case PhoneNumber => AsInput(v.phoneNumber)
    case Position => AsInput(v.position)
    case RelevantExperience => AsInput(v.relevantExperience)
    case PortfolioUrl => AsInput(v.portfolioUrl)
    case ManagementExperience => AsInput(v.managementExperience)
    case AdditionalSkills => Items(v.additionalSkills)
    case InterviewTime => AsInput(v.interviewTime)
  }

  /** The `is` conditions of the three `when('position', ...)` rules. */
  predicate ExperienceApplies(position: string) {
    position == "Developer" || position == "Designer"
  }

  predicate PortfolioApplies(position: string) {
    position == "Designer"
  }

  predicate ManagementApplies(position: string) {
    position == "Manager"
  }

  /** The fields whose rule depends on `position`. */
  predicate Conditional(f: Field) {
    f == RelevantExperience || f == PortfolioUrl || f == ManagementExperience
  }

  /**
   * The rule table as written. A `when` whose condition does not hold leaves
   * the base schema; one that holds concatenates the `then` schema onto it,
   * whose type-error message then replaces the base's default.
   */
  function Rule(f: Field, position: string): Schema {
    match f
    case FullName =>
      Schema(StringKind, None, [Required("Full Name is required")])
    case Email =>
      Schema(StringKind, None, [EmailFormat("Invalid email address"), Required("Email is required")])
    case PhoneNumber =>
      Schema(StringKind, None, [Matches("Must be a number"), Required("Phone Number is required")])
    case Position =>
      Schema(StringKind, None, [Required("Position is required")])
    case RelevantExperience =>
      if ExperienceApplies(position) then
        Schema(NumberKind, Some("Must be a number"),
               [Min(1, "Must be greater than 0"), Required("Relevant Experience is required")])
      else Schema(NumberKind, None, [])
    case PortfolioUrl =>
      if PortfolioApplies(position) then
        Schema(StringKind, None, [UrlFormat("Invalid URL"), Required("Portfolio URL is required")])
      else Schema(StringKind, None, [])
    case ManagementExperience =>
      if ManagementApplies(position) then
        Schema(StringKind, None, [Required("Management Experience is required")])
      else Schema(StringKind, None, [])
    case AdditionalSkills =>
      Schema(ArrayKind, None, [Min(1, "At least one skill must be selected")])
    case InterviewTime =>
      Schema(DateKind, None, [Required("Preferred Interview Time is required")])
  }

  /** The rule table with the hidden `relevantExperience` left unchecked, as if
      its base schema were `Yup.mixed()`; every other rule is as written. */
  function CorrectedRule(f: Field, position: string): Schema {
    if f == RelevantExperience && !ExperienceApplies(position) then Schema(MixedKind, None, [])
    else Rule(f, position)
  }

  /** The error Formik records for one field, under the corrected table. */
  function FieldError(c: Coercions, v: Values, f: Field): Option<string> {
    Check(c, Name(f), CorrectedRule(f, v.position), Prepare(v, f))
  }

  /** The error Formik records for one field, under the table as written. */
  function FieldErrorAsWritten(c: Coercions, v: Values, f: Field): Option<string> {
    Check(c, Name(f), Rule(f, v.position), Prepare(v, f))
  }

  /** Whether the render shows field `f` while `position` holds the given value. */
  predicate Visible(f: Field, position: string) {
    match f
    case RelevantExperience => position == "Developer" || position == "Designer"
    case PortfolioUrl => position == "Designer"
    case ManagementExperience => position == "Manager"
    case _ => true
  }

  /** Whether the render has an error paragraph for `f`: every field but the position select. */
  predicate ShowsError(f: Field) {
    f != Position
  }

  /** The error map of a record under the corrected table: one message per
      field that fails its rule. */
  function Validate(c: Coercions, v: Values): (r: map<Field, string>)
    ensures forall f :: !Visible(f, v.position) ==> f !in r
  {
    map f | f in AllFields && FieldError(c, v, f).Some? :: FieldError(c, v, f).value
  }

  /** The error map under the rule table as written: a hidden `relevantExperience`
      can still carry an error. */
  function ValidateAsWritten(c: Coercions, v: Values): (r: map<Field, string>)
    ensures forall f :: f != RelevantExperience && !Visible(f, v.position) ==> f !in r
  {
    map f | f in AllFields && FieldErrorAsWritten(c, v, f).Some? :: FieldErrorAsWritten(c, v, f).value
  }

  /** The messages the render puts on screen for an error map. */
  function Shown(errors: map<Field, string>, position: string): (r: map<Field, string>)
    ensures r.Keys <= errors.Keys
    ensures forall f :: f in r ==> r[f] == errors[f]
    ensures Position !in r
    ensures forall f :: !Visible(f, position) ==> f !in r
  {
    map f | f in errors && Visible(f, position) && ShowsError(f) :: errors[f]
  }

  /** The messages on screen for a record, under the corrected table. */
  function Displayed(c: Coercions, v: Values): map<Field, string> {
    Shown(Validate(c, v), v.position)
  }

  /** The corrected table accepts the record. */
  predicate Accepted(c: Coercions, v: Values) {
    Validate(c, v) == map[]
  }

  /** The table as written accepts the record: Formik submits exactly these. */
  predicate SubmitsAsWritten(c: Coercions, v: Values) {
    ValidateAsWritten(c, v) == map[]
  }

  /** The message of field `f` in an error map, if any. */
  function ErrorOf(errors: map<Field, string>, f: Field): Option<string> {
    if f in errors then Some(errors[f]) else None
  }
}
