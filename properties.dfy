/**
 * What the rule table promises, field by field and for the record as a
 * whole: the message each field reports, the dependence of three rules on
 * `position` and its agreement with what the render shows, which errors
 * reach the screen, and when the schema accepts a record.
 */
module FormProperties {
  import opened Yup
  import opened Form

  /** A field's entry in the error map is the field's own check. */
  lemma ErrorOfValidate(c: Coercions, v: Values, f: Field)
    ensures ErrorOf(Validate(c, v), f) == FieldError(c, v, f)
  {
    EveryFieldListed(f);
  }

  /** The same for the table as written. */
  lemma ErrorOfValidateAsWritten(c: Coercions, v: Values, f: Field)
    ensures ErrorOf(ValidateAsWritten(c, v), f) == FieldErrorAsWritten(c, v, f)
  {
    EveryFieldListed(f);
  }

  /** Formik's step from record to schema input loses nothing but the
      difference between an empty text and no value. */
  lemma PrepareKeepsValue(v: Values, w: Values, f: Field)
    ensures Prepare(v, f) == Prepare(w, f) <==> RawValue(v, f) == RawValue(w, f)
    ensures Prepare(v, f) == Absent <==> RawValue(v, f) == Text("")
  {
  }

  /** For each field the rule table either ignores `position`, and the field is
      always on screen, or its `when` condition holds exactly when the render
      shows the field: then and only then does the rule carry tests. */
  lemma RuleActiveIffVisible(f: Field, p: string, q: string)
    ensures !Conditional(f) ==> Rule(f, p) == Rule(f, q) && Visible(f, p)
    ensures Conditional(f) ==> (Rule(f, p).tests != [] <==> Visible(f, p))
  {
  }

  /** The conditional fields on screen for each position. */
  function ConditionalFieldsShown(position: string): set<Field> {
    if position == "Developer" then {RelevantExperience}
    else if position == "Designer" then {RelevantExperience, PortfolioUrl}
    else if position == "Manager" then {ManagementExperience}
    else {}
  }

  /** The render shows every unconditional field, and of the conditional ones
      the experience box for developers and designers, the portfolio URL for
      designers and the management experience for managers. */
  lemma VisibleFieldsByPosition(f: Field, position: string)
    ensures Visible(f, position) <==> !Conditional(f) || f in ConditionalFieldsShown(position)
  {
  }

  /** Every visible field but the position select shows its error unchanged. */
  lemma ShownKeepsVisibleErrors(errors: map<Field, string>, position: string, f: Field)
    requires f in errors && Visible(f, position) && f != Position
    ensures f in Shown(errors, position) && Shown(errors, position)[f] == errors[f]
  {
  }

  lemma EveryFieldListed(f: Field)
    ensures f in AllFields
  {
    match f
    case FullName =>
    case Email =>
    case PhoneNumber =>
    case Position =>
    case RelevantExperience =>
    case PortfolioUrl =>
    case ManagementExperience =>
    case AdditionalSkills =>
    case InterviewTime =>
  }

  lemma FullNameRule(c: Coercions, v: Values)
    ensures ErrorOf(Validate(c, v), FullName) ==
      if v.fullName == "" then Some("Full Name is required") else None
  {
    ErrorOfValidate(c, v, FullName);
    CheckOneTest(c, "fullName", StringKind, None, Required("Full Name is required"), Prepare(v, FullName));
  }

  /** An empty e-mail is reported as missing, a malformed one as invalid. */
  lemma EmailRule(c: Coercions, v: Values)
    ensures ErrorOf(Validate(c, v), Email) ==
      if v.email == "" then Some("Email is required")
      else if !c.isEmail(v.email) then Some("Invalid email address")
      else None
  {
    ErrorOfValidate(c, v, Email);
    CheckTwoTests(c, "email", StringKind, None, EmailFormat("Invalid email address"),
                  Required("Email is required"), Prepare(v, Email));
  }

  /** The phone number must be one or more digits and nothing else. */
  lemma PhoneNumberRule(c: Coercions, v: Values)
    ensures ErrorOf(Validate(c, v), PhoneNumber) ==
      if v.phoneNumber == "" then Some("Phone Number is required")
      else if exists i :: 0 <= i < |v.phoneNumber| && !('0' <= v.phoneNumber[i] <= '9') then Some("Must be a number")
      else None
  {
    ErrorOfValidate(c, v, PhoneNumber);
    CheckTwoTests(c, "phoneNumber", StringKind, None, Matches("Must be a number"),
                  Required("Phone Number is required"), Prepare(v, PhoneNumber));
    if v.phoneNumber != "" {
      NonDigitIffNotAllDigits(v.phoneNumber);
    }
  }

  /** A non-empty text fails /^[0-9]+$/ exactly when it has a non-digit character. */
  lemma NonDigitIffNotAllDigits(s: string)
    requires s != ""
    ensures (exists i :: 0 <= i < |s| && !('0' <= s[i] <= '9')) <==> !AllDigits(s)
  {
  }

  lemma PositionRule(c: Coercions, v: Values)
    ensures ErrorOf(Validate(c, v), Position) ==
      if v.position == "" then Some("Position is required") else None
  {
    ErrorOfValidate(c, v, Position);
    CheckOneTest(c, "position", StringKind, None, Required("Position is required"), Prepare(v, Position));
  }

  /**
   * Relevant experience is checked only for developers and designers; it must
   * be given, be a number, and be at least 1 (a value such as 0.5 is refused
   * although its message says "greater than 0").
   */
  lemma RelevantExperienceRule(c: Coercions, v: Values)
    ensures ErrorOf(Validate(c, v), RelevantExperience) ==
      if !ExperienceApplies(v.position) then None
      else if v.relevantExperience == "" then Some("Relevant Experience is required")
      else match c.toNumber(v.relevantExperience)
        case None => Some("Must be a number")
        case Some(n) => if n < 1.0 then Some("Must be greater than 0") else None
  {
    ErrorOfValidate(c, v, RelevantExperience);
    if ExperienceApplies(v.position) {
      CheckTwoTests(c, "relevantExperience", NumberKind, Some("Must be a number"),
                    Min(1, "Must be greater than 0"), Required("Relevant Experience is required"),
                    Prepare(v, RelevantExperience));
    } else {
      CheckNoTests(c, "relevantExperience", MixedKind, None, Prepare(v, RelevantExperience));
    }
  }

  /** The portfolio URL is checked only for designers. */
  lemma PortfolioUrlRule(c: Coercions, v: Values)
    ensures ErrorOf(Validate(c, v), PortfolioUrl) ==
      if !PortfolioApplies(v.position) then None
      else if v.portfolioUrl == "" then Some("Portfolio URL is required")
      else if !c.isUrl(v.portfolioUrl) then Some("Invalid URL")
      else None
  {
    ErrorOfValidate(c, v, PortfolioUrl);
    if PortfolioApplies(v.position) {
      CheckTwoTests(c, "portfolioUrl", StringKind, None, UrlFormat("Invalid URL"),
                    Required("Portfolio URL is required"), Prepare(v, PortfolioUrl));
    } else {
      CheckNoTests(c, "portfolioUrl", StringKind, None, Prepare(v, PortfolioUrl));
    }
  }

  /** Management experience is required of managers only. */
  lemma ManagementExperienceRule(c: Coercions, v: Values)
    ensures ErrorOf(Validate(c, v), ManagementExperience) ==
      if ManagementApplies(v.position) && v.managementExperience == "" then
        Some("Management Experience is required")
      else None
  {
    ErrorOfValidate(c, v, ManagementExperience);
    if ManagementApplies(v.position) {
      CheckOneTest(c, "managementExperience", StringKind, None,
                   Required("Management Experience is required"), Prepare(v, ManagementExperience));
    } else {
      CheckNoTests(c, "managementExperience", StringKind, None, Prepare(v, ManagementExperience));
    }
  }

  /** At least one skill must be ticked, whatever the other fields hold. */
  lemma AdditionalSkillsRule(c: Coercions, v: Values)
    ensures ErrorOf(Validate(c, v), AdditionalSkills) ==
      if v.additionalSkills == [] then Some("At least one skill must be selected") else None
  {
    ErrorOfValidate(c, v, AdditionalSkills);
    CheckOneTest(c, "additionalSkills", ArrayKind, None,
                 Min(1, "At least one skill must be selected"), Prepare(v, AdditionalSkills));
  }

  /** The interview time must be given and be a date; a text that is not a
      date gets Yup's default type-error message. */
  lemma InterviewTimeRule(c: Coercions, v: Values)
    ensures ErrorOf(Validate(c, v), InterviewTime) ==
      if v.interviewTime == "" then Some("Preferred Interview Time is required")
      else if !c.isDate(v.interviewTime) then Some(c.notType("interviewTime", DateKind, Text(v.interviewTime)))
      else None
  {
    ErrorOfValidate(c, v, InterviewTime);
    CheckOneTest(c, "interviewTime", DateKind, None,
                 Required("Preferred Interview Time is required"), Prepare(v, InterviewTime));
  }

  /** The message each required field reports when it is left empty. */
  function RequiredMessage(f: Field): string {
    match f
    case FullName => "Full Name is required"
    case Email => "Email is required"
    case PhoneNumber => "Phone Number is required"
    case Position => "Position is required"
    case RelevantExperience => "Relevant Experience is required"
    case PortfolioUrl => "Portfolio URL is required"
    case ManagementExperience => "Management Experience is required"
    case AdditionalSkills => "At least one skill must be selected"
    case InterviewTime => "Preferred Interview Time is required"
  }

  /** The condition under which a conditional rule is active is exactly the
      condition under which the render shows the field: left empty, a
      conditional field is reported missing if and only if it is on screen. */
  lemma ConditionalRequiredIffVisible(c: Coercions, v: Values, f: Field)
    requires Conditional(f) && Prepare(v, f) == Absent
    ensures f in Validate(c, v) <==> Visible(f, v.position)
    ensures f in Validate(c, v) ==> Validate(c, v)[f] == RequiredMessage(f)
  {
    ErrorOfValidate(c, v, f);
    match f
    case RelevantExperience => RelevantExperienceRule(c, v);
    case PortfolioUrl => PortfolioUrlRule(c, v);
    case ManagementExperience => ManagementExperienceRule(c, v);
  }

  /** Every empty required field with an active rule reports its required message. */
  lemma EmptyFieldReportsRequired(c: Coercions, v: Values, f: Field)
    requires Prepare(v, f) == Absent || Prepare(v, f) == Items([])
    requires Visible(f, v.position)
    ensures ErrorOf(Validate(c, v), f) == Some(RequiredMessage(f))
  {
    match f
    case FullName => FullNameRule(c, v);
    case Email => EmailRule(c, v);
    case PhoneNumber => PhoneNumberRule(c, v);
    case Position => PositionRule(c, v);
    case RelevantExperience => RelevantExperienceRule(c, v);
    case PortfolioUrl => PortfolioUrlRule(c, v);
    case ManagementExperience => ManagementExperienceRule(c, v);
    case AdditionalSkills => AdditionalSkillsRule(c, v);
    case InterviewTime => InterviewTimeRule(c, v);
  }

  /** A field's error depends on its own value only, and on `position` as well
      for the three conditional fields. */
  lemma ErrorDependsOnOwnValue(c: Coercions, v: Values, w: Values, f: Field)
    requires Prepare(v, f) == Prepare(w, f)
    requires Conditional(f) ==> v.position == w.position
    ensures ErrorOf(Validate(c, v), f) == ErrorOf(Validate(c, w), f)
  {
    ErrorOfValidate(c, v, f);
    ErrorOfValidate(c, w, f);
    assert CorrectedRule(f, v.position) == CorrectedRule(f, w.position);
  }

  /** Editing one field other than `position` changes at most that field's entry. */
  lemma EditChangesOnlyThatEntry(c: Coercions, v: Values, w: Values, f: Field)
    requires f != Position
    requires forall g :: g != f ==> Prepare(v, g) == Prepare(w, g)
    ensures Validate(c, w) - {f} == Validate(c, v) - {f}
  {
    assert Prepare(v, Position) == Prepare(w, Position);
    assert v.position == w.position;
    forall g | g != f
      ensures ErrorOf(Validate(c, v), g) == ErrorOf(Validate(c, w), g)
    {
      ErrorDependsOnOwnValue(c, v, w, g);
    }
    MapsEqualBesides(Validate(c, v), Validate(c, w), f);
  }

  /** As written too, a field's error depends on its own value only, and on
      `position` as well for the three conditional fields. */
  lemma ErrorDependsOnOwnValueAsWritten(c: Coercions, v: Values, w: Values, f: Field)
    requires Prepare(v, f) == Prepare(w, f)
    requires Conditional(f) ==> v.position == w.position
    ensures ErrorOf(ValidateAsWritten(c, v), f) == ErrorOf(ValidateAsWritten(c, w), f)
  {
    ErrorOfValidateAsWritten(c, v, f);
    ErrorOfValidateAsWritten(c, w, f);
    assert Rule(f, v.position) == Rule(f, w.position);
  }

  /** As written too, editing one field other than `position` changes at most
      that field's entry. */
  lemma EditChangesOnlyThatEntryAsWritten(c: Coercions, v: Values, w: Values, f: Field)
    requires f != Position
    requires forall g :: g != f ==> Prepare(v, g) == Prepare(w, g)
    ensures ValidateAsWritten(c, w) - {f} == ValidateAsWritten(c, v) - {f}
  {
    assert Prepare(v, Position) == Prepare(w, Position);
    assert v.position == w.position;
    forall g | g != f
      ensures ErrorOf(ValidateAsWritten(c, v), g) == ErrorOf(ValidateAsWritten(c, w), g)
    {
      ErrorDependsOnOwnValueAsWritten(c, v, w, g);
    }
    MapsEqualBesides(ValidateAsWritten(c, v), ValidateAsWritten(c, w), f);
  }

  /** Two maps that agree on every key but `f` are equal once `f` is removed. */
  lemma MapsEqualBesides(m: map<Field, string>, n: map<Field, string>, f: Field)
    requires forall g :: g != f ==> ErrorOf(m, g) == ErrorOf(n, g)
    ensures n - {f} == m - {f}
  {
    forall g | g in m - {f} ensures g in n - {f} && (n - {f})[g] == (m - {f})[g] {
      assert ErrorOf(m, g) == ErrorOf(n, g);
    }
    forall g | g in n - {f} ensures g in m - {f} {
      assert ErrorOf(m, g) == ErrorOf(n, g);
    }
  }

  /** The position select has no error paragraph, so its error never reaches
      the screen, although the schema reports it whenever no position is chosen
      (the position rule is the same in both tables). */
  lemma PositionErrorNeverShown(c: Coercions, v: Values)
    ensures Position !in Displayed(c, v)
    ensures Position in Validate(c, v) <==> v.position == ""
  {
    PositionRule(c, v);
  }

  /** Under the corrected table, what the screen shows is the whole error map
      except the position entry: no error is held back by a hidden field. */
  lemma DisplayedIsErrorsWithoutPosition(c: Coercions, v: Values)
    ensures Displayed(c, v) == Validate(c, v) - {Position}
  {
    var e := Validate(c, v);
    forall f | f in e - {Position} ensures f in Displayed(c, v) {
      assert Visible(f, v.position);
    }
  }

  /** The corrected table accepts a record exactly when every field meets its rule. */
  lemma AcceptedIff(c: Coercions, v: Values)
    ensures Accepted(c, v) <==>
      v.fullName != "" &&
      v.email != "" && c.isEmail(v.email) &&
      AllDigits(v.phoneNumber) &&
      v.position != "" &&
      (ExperienceApplies(v.position) ==>
        v.relevantExperience != "" && c.toNumber(v.relevantExperience).Some? &&
        c.toNumber(v.relevantExperience).value >= 1.0) &&
      (PortfolioApplies(v.position) ==> v.portfolioUrl != "" && c.isUrl(v.portfolioUrl)) &&
      (ManagementApplies(v.position) ==> v.managementExperience != "") &&
      v.additionalSkills != [] &&
      v.interviewTime != "" && c.isDate(v.interviewTime)
  {
    FullNameRule(c, v);
    EmailRule(c, v);
    PhoneNumberRule(c, v);
    PositionRule(c, v);
    RelevantExperienceRule(c, v);
    PortfolioUrlRule(c, v);
    ManagementExperienceRule(c, v);
    AdditionalSkillsRule(c, v);
    InterviewTimeRule(c, v);
    var e := Validate(c, v);
    if e != map[] {
      var f :| f in e;
      assert ErrorOf(e, f).Some?;
    }
  }

  /** The error map of the untouched initial values, once they are validated
      (for example on Submit): every unconditional field is reported missing. */
  function InitialErrors(): map<Field, string> {
    map f | f in AllFields && !Conditional(f) :: RequiredMessage(f)
  }

  /** Validating the initial values reports every unconditional field missing,
      and nothing else. */
  lemma InitialValuesErrors(c: Coercions)
    ensures Validate(c, InitialValues()) == InitialErrors()
  {
    var v := InitialValues();
    forall f ensures ErrorOf(Validate(c, v), f) == ErrorOf(InitialErrors(), f) {
      EveryFieldListed(f);
      if Conditional(f) {
        ConditionalRequiredIffVisible(c, v, f);
      } else {
        EmptyFieldReportsRequired(c, v, f);
      }
    }
    MapsEqualEverywhere(Validate(c, v), InitialErrors());
  }

  /** Once the initial values are validated, the screen shows all of those
      messages but the position's; before the first validation Formik's error
      map is empty, and so is the screen. */
  lemma InitialValuesDisplayed(c: Coercions)
    ensures Displayed(c, InitialValues()) == InitialErrors() - {Position}
    ensures Shown(map[], InitialValues().position) == map[]
  {
    InitialValuesErrors(c);
    DisplayedIsErrorsWithoutPosition(c, InitialValues());
  }

  /** Two maps that agree on every key are equal. */
  lemma MapsEqualEverywhere(m: map<Field, string>, n: map<Field, string>)
    requires forall g :: ErrorOf(m, g) == ErrorOf(n, g)
    ensures m == n
  {
    forall g | g in m ensures g in n && n[g] == m[g] {
      assert ErrorOf(m, g) == ErrorOf(n, g);
    }
    forall g | g in n ensures g in m {
      assert ErrorOf(m, g) == ErrorOf(n, g);
    }
  }

  /** A developer's application with every field filled in correctly is accepted. */
  lemma DeveloperExampleAccepted(c: Coercions)
    requires c.isEmail("jane@x.com")
    requires c.toNumber("3") == Some(3.0)
    requires c.isDate("2024-05-01T10:30")
    ensures Accepted(c, Values("Jane Doe", "jane@x.com", "5551234567", "Developer", "3", "", "",
                               ["JavaScript"], "2024-05-01T10:30"))
  {
    var v := Values("Jane Doe", "jane@x.com", "5551234567", "Developer", "3", "", "",
                    ["JavaScript"], "2024-05-01T10:30");
    assert AllDigits(v.phoneNumber);
    AcceptedIff(c, v);
  }
}
