# Companion form: validation and submission

A Dafny model of the companion-creation form of the saas-app project
(`components/CompanionForm.tsx`). The form collects a companion's name,
subject, topic, voice, style and session duration, validates them with a
schema, hands the validated record to a creation routine and navigates on
its result.

- `Wrappers.dfy` — `Option` and `Result`.
- `CompanionSchema.dfy` — the schema: five text fields whose length must
  be 1 to 80, each with its own "required" message, and a duration that
  is coerced to a number which must lie from 1 to 80 ("Duration is
  required." below 1). The number conversion is a parameter
  `toNumber: string -> Option<real>`, with `None` for a value that is not a
  number; a duration the form was preset with (the default 15) passes
  through unconverted. Fields are checked one by one and all failing
  fields are reported together in a map from field to `Issue`; a form
  with no failing field yields the validated record, text unchanged.
  `Acceptable` is an independent statement of the bounds, `Valid` the
  invariant of every validated record.
- `CompanionSubmit.dfy` — the submit handler: the creation result is an
  `Option<Companion>` input, and the output is the navigation target plus
  the log lines written. `Submit` adds the form library's contract that the
  handler runs only on values the schema accepts.

Behaviour as written, where descriptions of the form say otherwise:

- `subject`, `voice` and `style` are not checked against the choices the
  dropdowns offer; any text of length 1 to 80 is accepted
  (`UnlistedSubjectAccepted`).
- A duration that is not a number fails with the validation library's own
  "not a number" issue, not with "Duration is required." (`DurationVerdict`).
- A fault thrown by the creation routine is not caught, and nothing guards
  against a second submit while the first is pending.

## Model

| member | source | states |
|---|---|---|
| `CompanionSchema.Errors` | components/CompanionForm.tsx:31-42 | a field is in the error map exactly when its own rule fails, with that rule's issue; all failing fields are reported together |
| `CompanionSchema.Validate` | components/CompanionForm.tsx:31-45 | succeeds exactly when the form meets every bound; the record it returns keeps the five texts unchanged, carries the coerced duration and satisfies the length and range invariant; on failure it returns the full, non-empty error map |
| `CompanionSchema.NoErrorsIffAcceptable` | components/CompanionForm.tsx:31-42 | the error map is empty exactly when every text has length 1 to 80 and the duration is a number from 1 to 80 |
| `CompanionSchema.TextFieldVerdict` | components/CompanionForm.tsx:32-36 | a text field passes exactly when its length is 1 to 80; empty gives its own required message, longer than 80 gives the maximum-length issue |
| `CompanionSchema.RequiredMessagesDistinct` | components/CompanionForm.tsx:32-40 | no two fields share a required message |
| `CompanionSchema.DurationVerdict` | components/CompanionForm.tsx:38-41 | the duration passes exactly when it converts to a number from 1 to 80; below 1 gives "Duration is required.", above 80 the maximum issue, not a number the library's own issue, which is not the required message |
| `CompanionSchema.FieldVerdictIndependent` | components/CompanionForm.tsx:31-42 | forms that agree on one field get the same verdict and issue on that field, whatever the other fields hold |
| `CompanionSchema.ValidateUsesConversionOnlyOnDuration` | components/CompanionForm.tsx:38-39 | validation consults the number conversion only on the duration's text: conversions that agree there give the same outcome |
| `CompanionSchema.DefaultFormVerdict` | components/CompanionForm.tsx:55-62 | the starting form fails on exactly the five text fields, each with its own required message, passes on the duration of 15, and so does not validate |
| `CompanionSchema.UnlistedSubjectAccepted` | components/CompanionForm.tsx:33-36 | a subject, voice and style outside the dropdown choices still validate, unchanged |
| `CompanionSubmit.AfterCreate` | components/CompanionForm.tsx:68-73 | a created companion leads to "/companions/" followed by its id with nothing logged; no companion logs the failure notice and leads to "/" |
| `CompanionSubmit.TargetIdentifiesOutcome` | components/CompanionForm.tsx:68-73 | equal navigation targets mean equal creation results: a failure never lands on a companion page and different ids give different pages |
| `CompanionSubmit.Submit` | components/CompanionForm.tsx:65-78 | submission is blocked with the full error map exactly when the form is not acceptable; otherwise the validated record is sent and the navigation is the one for the creation result |
| `CompanionSubmit.EmptyNameBlocksCreation` | components/CompanionForm.tsx:32 | an empty name blocks submission before creation, reporting "Companion is required." for the name |
| `CompanionSubmit.AcceptedFormNavigates` | components/CompanionForm.tsx:65-72 | an acceptable form sends its own texts and coerced duration, then lands on the companion's page or, with the failure logged, on "/" |

## Left out

- Rendering: labels, placeholders, inputs and dropdowns (components/CompanionForm.tsx:76-234) have no behaviour to state.
- Form state kept by react-hook-form and the resolver type cast (components/CompanionForm.tsx:50, 53-63, 78): only the contract that the submit handler runs after validation succeeds is modelled, in `Submit`.
- The text-to-number conversion is a parameter: floating-point parsing is not modelled, and neither are infinities or negative zero, which `real` cannot express.
- The wording of the validation library's messages for too-long text, too-large duration and a non-number; the issues are modelled by kind and bound only.
- Text length counts Dafny characters; JavaScript counts UTF-16 code units, so text with characters outside the Basic Multilingual Plane can be measured differently.
- Input that is not a string in a text field: the form's controls only produce strings.
- The order in which the library lists issues: the model reports them as a map keyed by field.
- `createCompanion` and `redirect` are outside code: the first is an input (`create`, or `created` in `AfterCreate`), the second the output `target`; the control flow by which `redirect` leaves the handler is not modelled.
- `console.log` is modelled only as the `log` lines of the navigation.
- The asynchronous wait on creation, a fault thrown by it and a second submit while one is pending: these are about concurrency and exceptions, which the code does not handle.
- The contents of the subject list (`@/constants`) are not part of this model; the schema does not use them.
