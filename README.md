# Job application form: the validation rule table

The repository is a React page with one form: a job application of nine
fields, kept by Formik and validated by a Yup schema. This project models the
part of it that is logic rather than markup:

- the value record and its initial (empty) values;
- the rule table, one Yup schema per field. Three of the rules apply only for
  some values of `position`: `relevantExperience` for Developer and Designer,
  `portfolioUrl` for Designer, `managementExperience` for Manager;
- the error map Formik derives from it: at most one message per field;
- which fields the render shows, and which of them have an error paragraph.

Files and modules:

- `yup.dfy`, module `Yup`: the slice of Yup the rule table uses, with the
  semantics of Yup 0.32. That is the version the rule table is written for:
  Yup 1.x refuses a `when` whose `then` is a schema rather than a function
  (lines 25-38). Two things depend on this version: the `then` schema's
  type-error message replaces the base's when the two are joined, and the
  flaw under Findings arises. It covers the
  string, number, date and array schemas and the tests `required`,
  `matches(/^[0-9]+$/)`, `email`, `url` and `min`. `Check` gives the one
  message a field reports. A failed cast reports the type error and stops
  there. Otherwise the first failing test in declaration order wins, because
  Formik keeps only the first error for each path.
- `form.dfy`, module `Form`: the record (`Values`) and the fields (`Field`).
  `Prepare` gives each value as the schema sees it: Formik passes an empty
  text to Yup as `undefined`. It also holds the rule table as written
  (`Rule`), the corrected table (`CorrectedRule`, see Findings), the error
  maps `Validate` and `ValidateAsWritten`, the render's `Visible` and
  `ShowsError`, and the map of messages on screen (`Shown`, `Displayed`).
- `properties.dfy`, module `FormProperties`: lemmas for the rule of each
  field. Then the lemmas that relate the rules to each other and to the render.
- `findings.dfy`, module `Findings`: the flaw in the rule table as written.

`Validate`, `Displayed` and `Accepted` are built on the corrected table.
`ValidateAsWritten` and `SubmitsAsWritten` are built on the table as
written. Formik submits exactly the records for which `SubmitsAsWritten`
holds. The two tables differ only in an error on a hidden
`relevantExperience` (`Findings.CorrectionChangesOnlyHiddenExperience`), and
the screen is the same under both (`Findings.ScreenSameAsWritten`). The
rules of the eight fields other than `relevantExperience` in
`properties.dfy` hold unchanged for `ValidateAsWritten`
(`Findings.OtherFieldsSameAsWritten`), and so does the experience rule
whenever the position is Developer or Designer.

Some of what Yup decides cannot be read from this repository. Every check
takes it as a parameter `c: Coercions`, which holds:

- the e-mail and URL regular expressions (`isEmail`, `isUrl`);
- the number cast (`toNumber`, which gives `None` where JavaScript gives NaN);
- the date cast (`isDate`);
- the text of Yup's default type-error message (`notType`).

Points where the code's behaviour is easy to misread:

- `relevantExperience` must be at least 1.
  `min(1, 'Must be greater than 0')` turns away 0.5 with the message
  "Must be greater than 0".
- `position` is a plain string. Only the select's four options occur in practice.
- `additionalSkills` is a list, and may in principle hold repeats.
- An interview time that is not empty but does not parse as a date gets Yup's
  default type-error message, not "Preferred Interview Time is required".
- An empty `relevantExperience` for a Developer or Designer reports
  "Relevant Experience is required". The value reaches Yup as `undefined`, so
  the number cast does not fail on it.

## Model

| member | source | states |
|---|---|---|
| `Yup.FirstFailure` | src/JobApplicationForm.js:19-41 | the index it returns is a failing test with only passing tests before it; it returns none exactly when every test passes |
| `Yup.Check` | src/JobApplicationForm.js:19-41 | a value that fails the cast reports the type-error message; otherwise it reports nothing exactly when every test passes, and else the message of the first failing test |
| `Form.Validate` | src/JobApplicationForm.js:19-41 | under the corrected table, a field the render hides never has an entry |
| `Form.ValidateAsWritten` | src/JobApplicationForm.js:24-28 | under the table as written, only `relevantExperience` can have an entry while it is hidden |
| `Form.Shown` | src/JobApplicationForm.js:57-172 | the screen shows only errors of the map and shows them unchanged; it never shows the position error, and never shows the error of a hidden field |
| `FormProperties.ShownKeepsVisibleErrors` | src/JobApplicationForm.js:57-172 | each visible field other than the position select has an error paragraph, so its error is on screen unchanged |
| `FormProperties.RuleActiveIffVisible` | src/JobApplicationForm.js:19-41 | in the rule table, an unconditional field's rule ignores `position` and the field is always shown; a conditional field's rule carries tests exactly when the render shows the field |
| `FormProperties.VisibleFieldsByPosition` | src/JobApplicationForm.js:92-116 | the render shows every unconditional field, and relevantExperience for Developer and Designer, portfolioUrl for Designer, managementExperience for Manager |
| `FormProperties.PrepareKeepsValue` | src/JobApplicationForm.js:8-18 | handing the record to the schema merges only an empty text with no value: two records give the same schema input for a field exactly when they hold the same value there |
| `FormProperties.FullNameRule` | src/JobApplicationForm.js:20 | an empty full name gives "Full Name is required"; any other value gives no error |
| `FormProperties.EmailRule` | src/JobApplicationForm.js:21 | empty gives "Email is required", malformed gives "Invalid email address", otherwise no error |
| `FormProperties.PhoneNumberRule` | src/JobApplicationForm.js:22 | empty gives "Phone Number is required", any non-digit character gives "Must be a number", an all-digit text gives no error |
| `FormProperties.PositionRule` | src/JobApplicationForm.js:23 | no position gives "Position is required", any position gives no error |
| `FormProperties.RelevantExperienceRule` | src/JobApplicationForm.js:24-28 | under the corrected table, no error unless the position is Developer or Designer; then empty gives the required message, a non-number gives "Must be a number", a number below 1 gives "Must be greater than 0", and a number of at least 1 gives no error |
| `FormProperties.PortfolioUrlRule` | src/JobApplicationForm.js:29-33 | no error unless the position is Designer; then empty gives "Portfolio URL is required", malformed gives "Invalid URL", otherwise no error |
| `FormProperties.ManagementExperienceRule` | src/JobApplicationForm.js:34-38 | gives "Management Experience is required" exactly when the position is Manager and the field is empty |
| `FormProperties.AdditionalSkillsRule` | src/JobApplicationForm.js:39 | an empty skills list gives "At least one skill must be selected" whatever the other fields hold; a non-empty list gives no error |
| `FormProperties.InterviewTimeRule` | src/JobApplicationForm.js:40 | empty gives "Preferred Interview Time is required", a text that is not a date gives Yup's default date type error, a date gives no error |
| `FormProperties.ConditionalRequiredIffVisible` | src/JobApplicationForm.js:92-127 | an empty conditional field has an error exactly when the render shows it, and that error is its required message |
| `FormProperties.EmptyFieldReportsRequired` | src/JobApplicationForm.js:19-41 | every visible field left empty reports its own required message |
| `FormProperties.ErrorDependsOnOwnValue` | src/JobApplicationForm.js:19-41 | a field's error depends only on its own value, and also on `position` for the three conditional fields |
| `FormProperties.EditChangesOnlyThatEntry` | src/JobApplicationForm.js:19-41 | changing one field other than `position` leaves every other entry of the error map as it was |
| `FormProperties.ErrorDependsOnOwnValueAsWritten` | src/JobApplicationForm.js:19-41 | under the table as written too, a field's error depends only on its own value, and also on `position` for the three conditional fields |
| `FormProperties.EditChangesOnlyThatEntryAsWritten` | src/JobApplicationForm.js:19-41 | under the table as written too, changing one field other than `position` leaves every other entry of the error map as it was |
| `FormProperties.PositionErrorNeverShown` | src/JobApplicationForm.js:79-91 | the position error is in the error map exactly when no position is chosen, and it is never on screen |
| `FormProperties.DisplayedIsErrorsWithoutPosition` | src/JobApplicationForm.js:92-127 | under the corrected table, the messages on screen are the whole error map minus the position entry |
| `FormProperties.AcceptedIff` | src/JobApplicationForm.js:19-41 | the corrected table accepts a record if and only if each field meets its rule, including the three rules conditional on `position` |
| `FormProperties.InitialValuesErrors` | src/JobApplicationForm.js:8-41 | once validated (for example on Submit), the initial values report each of the six unconditional fields with its required message, and nothing else |
| `FormProperties.InitialValuesDisplayed` | src/JobApplicationForm.js:8-18 | once the initial values are validated, the screen shows those messages except the position's; before any validation Formik's error map is empty and nothing shows, since the screen of an empty map is empty |
| `FormProperties.DeveloperExampleAccepted` | src/JobApplicationForm.js:19-41 | a complete Developer application with correct values is accepted by the corrected table |
| `Findings.HiddenExperienceErrorAsWritten` | src/JobApplicationForm.js:24-28 | under the table as written, a hidden `relevantExperience` has an error exactly when it holds non-empty text that is not a number, and the error is Yup's default number type error |
| `Findings.CorrectionChangesOnlyHiddenExperience` | src/JobApplicationForm.js:24-28 | the table as written and the corrected one agree on every other field, and agree on every field when the position is Developer or Designer |
| `Findings.OtherFieldsSameAsWritten` | src/JobApplicationForm.js:19-41 | every field other than `relevantExperience` reports the same error under the table as written as under the corrected table |
| `Findings.StaleExperienceOnlyErrorAsWritten` | src/JobApplicationForm.js:24-28 | a record the corrected table accepts, with non-numeric text in a hidden experience box, has exactly one error under the table as written: the number type error of `relevantExperience` |
| `Findings.SubmitsAsWrittenIff` | src/JobApplicationForm.js:24-28 | the table as written accepts a record, and Formik submits it, exactly when the corrected table accepts it and no non-numeric text sits in a hidden experience box |
| `Findings.ScreenSameAsWritten` | src/JobApplicationForm.js:92-127 | the messages on screen under the table as written are those under the corrected table |
| `Findings.ManagerBlockedSilently` | src/JobApplicationForm.js:24-28 | a Manager application complete except for "two" left in the hidden experience box is rejected as written with nothing on screen, and is accepted by the corrected table |

## Left out

- The JSX markup and the page (`src/App.js`): UI with no logic beyond which
  fields are visible and which messages show, and both of those are modelled.
- Formik's state handling: `useFormik`, `handleChange`, and how a checkbox
  adds its value to the skills list or removes it. Also left out: when
  validation runs, and `handleSubmit`. These belong to a library that is not
  in this repository. Formik submits exactly when the error map of the table
  as written is empty (`Form.SubmitsAsWritten`). Before the first validation
  its error map is empty, so an untouched form shows no message.
- The submit handler's `alert(JSON.stringify(values, null, 2))`: browser I/O.
- Yup's e-mail and URL regular expressions, its string-to-number and date
  casts, and its default type-error text. These are the abstract fields of
  `Coercions`, because Yup's code is not part of this repository. The model
  does know two facts about Yup's tests: `email` and `url` skip the empty
  text, and `matches` does not.
- Numbers are mathematical reals. JavaScript's floating point (rounding,
  `Infinity`) is left to whatever `toNumber` yields.
- Formik's `''`-to-`undefined` step on the elements of the skills list. The
  checkbox values are never empty, so this step never changes them.
- Form.Shown: keeps an entry whose message is the empty text, while the
  render's `errors.x && <p>` draws nothing for it. Every message of the rule
  table is non-empty, so this matters only if the abstract `notType` returned
  the empty text.
- Yup validates asynchronously and gathers errors across fields. The model
  computes the same map as a pure function of the record.

## Findings

| source | as written | input that shows it | evidently intended | confidence | as-written member | corrected member |
|---|---|---|---|---|---|---|
| src/JobApplicationForm.js:24-28 | the base schema `Yup.number()` still casts `relevantExperience` when the position is not Developer or Designer, so text that is not a number keeps an error on the hidden field | position "Manager", relevantExperience "two", every other field valid: the error map holds Yup's number type error for `relevantExperience`, the screen shows no message, and submission is refused | a hidden field never carries an error, so it cannot block submission | not executed; relies on Yup's number schema casting its value even with no tests | `Findings.SubmitsAsWrittenIff` | `Form.Validate` |
