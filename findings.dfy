/**
 * The rule table as written gives `relevantExperience` the base schema
 * `Yup.number()` when the position is neither Developer nor Designer. That
 * schema still casts its value, so text that is not a number, typed while
 * the field was on screen and left behind when the position changed, keeps
 * an error on a field the render no longer shows. Formik then refuses to
 * submit, with no message on screen to say why.
 */
module Findings {
  import opened Yup
  import opened Form
  import FormProperties

  /** Under the table as written, a hidden `relevantExperience` carries an
      error exactly when it holds text that is not a number. */
  lemma HiddenExperienceErrorAsWritten(c: Coercions, v: Values)
    requires !ExperienceApplies(v.position)
    ensures RelevantExperience in ValidateAsWritten(c, v) <==>
      v.relevantExperience != "" && c.toNumber(v.relevantExperience).None?
    ensures RelevantExperience in ValidateAsWritten(c, v) ==>
      ValidateAsWritten(c, v)[RelevantExperience] ==
        c.notType("relevantExperience", NumberKind, Text(v.relevantExperience))
  {
    FormProperties.EveryFieldListed(RelevantExperience);
    CheckNoTests(c, "relevantExperience", NumberKind, None, Prepare(v, RelevantExperience));
  }

  /** The correction changes that entry only: for every other field, and for
      every record of a developer or designer, both tables agree. */
  lemma CorrectionChangesOnlyHiddenExperience(c: Coercions, v: Values)
    ensures ValidateAsWritten(c, v) - {RelevantExperience} == Validate(c, v) - {RelevantExperience}
    ensures ExperienceApplies(v.position) ==> ValidateAsWritten(c, v) == Validate(c, v)
  {
    var w, e := ValidateAsWritten(c, v), Validate(c, v);
    forall f | f != RelevantExperience || ExperienceApplies(v.position)
      ensures ErrorOf(w, f) == ErrorOf(e, f)
    {
      FormProperties.ErrorOfValidate(c, v, f);
      FormProperties.EveryFieldListed(f);
      assert CorrectedRule(f, v.position) == Rule(f, v.position);
    }
    FormProperties.MapsEqualBesides(e, w, RelevantExperience);
    if ExperienceApplies(v.position) {
      FormProperties.MapsEqualEverywhere(w, e);
    }
  }

  /** Every field but `relevantExperience` reports the same error under both
      tables, so the per-field rules of the other eight fields describe the
      program's own error map as well. */
  lemma OtherFieldsSameAsWritten(c: Coercions, v: Values, f: Field)
    requires f != RelevantExperience
    ensures ErrorOf(ValidateAsWritten(c, v), f) == ErrorOf(Validate(c, v), f)
  {
    FormProperties.ErrorOfValidate(c, v, f);
    FormProperties.ErrorOfValidateAsWritten(c, v, f);
  }

  /** A manager's application that is complete except for the word "two" left
      in the hidden experience box: the table as written rejects it while the
      screen shows no message, and the corrected table accepts it. */
  lemma ManagerBlockedSilently(c: Coercions)
    requires c.isEmail("jane@x.com")
    requires c.toNumber("two") == None
    requires c.isDate("2024-05-01T10:30")
    ensures ValidateAsWritten(c, ManagerWithStaleExperience()) ==
      map[RelevantExperience := c.notType("relevantExperience", NumberKind, Text("two"))]
    ensures Shown(ValidateAsWritten(c, ManagerWithStaleExperience()), "Manager") == map[]
    ensures Accepted(c, ManagerWithStaleExperience())
  {
    ManagerAccepted(c);
    ManagerRejectedAsWritten(c);
    var w := ValidateAsWritten(c, ManagerWithStaleExperience());
    assert !Visible(RelevantExperience, "Manager");
    assert Shown(w, "Manager").Keys == {};
  }

  /** The corrected table accepts the scenario's record. */
  lemma ManagerAccepted(c: Coercions)
    requires c.isEmail("jane@x.com")
    requires c.toNumber("two") == None
    requires c.isDate("2024-05-01T10:30")
    ensures Accepted(c, ManagerWithStaleExperience())
  {
    var v := ManagerWithStaleExperience();
    assert AllDigits(v.phoneNumber);
    FormProperties.AcceptedIff(c, v);
  }

  /** A record the corrected table accepts is rejected as written exactly for
      non-numeric text left in a hidden experience box, and for nothing else. */
  lemma StaleExperienceOnlyErrorAsWritten(c: Coercions, v: Values)
    requires Accepted(c, v)
    requires !ExperienceApplies(v.position)
    requires v.relevantExperience != "" && c.toNumber(v.relevantExperience).None?
    ensures ValidateAsWritten(c, v) ==
      map[RelevantExperience := c.notType("relevantExperience", NumberKind, Text(v.relevantExperience))]
  {
    CorrectionChangesOnlyHiddenExperience(c, v);
    HiddenExperienceErrorAsWritten(c, v);
    SingleEntry(ValidateAsWritten(c, v), RelevantExperience);
  }

  /** A map that is empty once `f` is removed, and holds `f`, has `f` only. */
  lemma SingleEntry(w: map<Field, string>, f: Field)
    requires f in w && w - {f} == map[]
    ensures w == map[f := w[f]]
  {
    forall g | g in w ensures g == f {
      assert g !in w - {f};
    }
  }

  /** The table as written reports only the hidden experience box. */
  lemma ManagerRejectedAsWritten(c: Coercions)
    requires Accepted(c, ManagerWithStaleExperience())
    requires c.toNumber("two") == None
    ensures ValidateAsWritten(c, ManagerWithStaleExperience()) ==
      map[RelevantExperience := c.notType("relevantExperience", NumberKind, Text("two"))]
  {
    StaleExperienceOnlyErrorAsWritten(c, ManagerWithStaleExperience());
  }

  /** The table as written accepts a record exactly when the corrected one does
      and no non-numeric text sits in a hidden experience box. */
  lemma SubmitsAsWrittenIff(c: Coercions, v: Values)
    ensures SubmitsAsWritten(c, v) <==>
      Accepted(c, v) &&
      (ExperienceApplies(v.position) || v.relevantExperience == "" ||
       c.toNumber(v.relevantExperience).Some?)
  {
    CorrectionChangesOnlyHiddenExperience(c, v);
    var w, e := ValidateAsWritten(c, v), Validate(c, v);
    if !ExperienceApplies(v.position) {
      HiddenExperienceErrorAsWritten(c, v);
      FormProperties.ErrorOfValidate(c, v, RelevantExperience);
      assert RelevantExperience !in e;
      if w == map[] {
        assert w - {RelevantExperience} == map[];
        EmptyWithout(e, RelevantExperience);
      }
      if e == map[] && RelevantExperience !in w {
        EmptyWithout(w, RelevantExperience);
      }
    }
  }

  /** A map without `f` that is empty once `f` is removed is empty. */
  lemma EmptyWithout(m: map<Field, string>, f: Field)
    requires f !in m && m - {f} == map[]
    ensures m == map[]
  {
    assert m.Keys == (m - {f}).Keys;
  }

  /** The screen is the same under both tables: the one entry they can differ
      in belongs to a field that is not shown. */
  lemma ScreenSameAsWritten(c: Coercions, v: Values)
    ensures Shown(ValidateAsWritten(c, v), v.position) == Displayed(c, v)
  {
    CorrectionChangesOnlyHiddenExperience(c, v);
    var w, e := ValidateAsWritten(c, v), Validate(c, v);
    forall f ensures ErrorOf(Shown(w, v.position), f) == ErrorOf(Shown(e, v.position), f) {
      if f != RelevantExperience || ExperienceApplies(v.position) {
        assert ErrorOf(w, f) == ErrorOf(e, f) by {
          if f != RelevantExperience {
            assert f in w <==> f in w - {RelevantExperience};
            assert f in e <==> f in e - {RelevantExperience};
          }
        }
      }
    }
    FormProperties.MapsEqualEverywhere(Shown(w, v.position), Shown(e, v.position));
  }

  /** The record of that scenario. */
  function ManagerWithStaleExperience(): Values {
    Values("Jane Doe", "jane@x.com", "5551234567", "Manager", "two", "", "Ten years",
           ["JavaScript"], "2024-05-01T10:30")
  }
}
