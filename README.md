# TRL evaluation survey: validation schemas and wizard, in Dafny

This project models the core of a web survey that rates the technology
readiness (TRL) of a university's academic units. The respondent goes
through a five-step wizard:

1. "Información General": who answers, plus two yes/no questions about a
   CTI+e strategy, each with an explanation.
2. "Áreas de Conocimiento e Investigación": nine rated criteria, each with
   its own justification.
3. "Transferencia de Tecnología y Participación en Innovación": six rated
   criteria, each with its own justification.
4. "Colaboración y Formación": fourteen rated criteria in two groups, with
   one justification per group.
5. "Infraestructura y Emprendimiento": nine rated criteria in two groups,
   with one justification per group. Submitting this step sends the whole
   evaluation to the server.

Each step validates its record with a zod object schema before the wizard
accepts it.

The model has two halves:

- **Step schemas** are pure predicates over records. Steps 2–5 hold flat
  string records, modelled as `map<string, string>`; a key that is absent is
  a field left `undefined`. Their checks come from the rule table in
  `StepSchema`:
  - `Required` is `z.string({required_error})`. It rejects a missing value
    and nothing else.
  - `MinLength` is `z.string().min(n)`.

  Step 1 mixes strings and a number, so its record is a datatype with
  `Option` fields. It also runs two `.refine` rules after the object parse.
  Each rule reports its error on the explanation field, not on the selector.
  A missing field makes the object parse abort, and then the rules do not
  run. A too-short string does not abort, so the rules still run.
- **The wizard** (`TRLEvaluationWizard`) is a class. Its fields are the step
  index and the five optional answer slices, and its methods are the
  navigation buttons and the step handlers. The final handler talks to a
  `FormGateway` object that stands for the `submitForm` mutation. Each call
  to the gateway is recorded in its `sent` log and either stores the
  submission or fails. The class invariant
  keeps the step index within the five steps and says that every step
  before the current one has its slice saved, so the evaluation sent from
  the last step is always complete. The step titles, the render
  dispatch and the progress label are pure functions.

The rating label chain copied into every rating form is defined once, in
`RatingScale`.

## Behaviour worth knowing

- **Empty ratings pass.** Every rating is `z.string({required_error:
  "Calificación requerida"})` (for example
  `src/components/forms/AreasConocimientoForm.tsx:30-32`). Despite its
  "required" message, that check rejects only a missing value: `""` and any
  other string are accepted, so a rating left unselected passes. The 0–5
  scale comes from the select's options, not from the schema
  (`RatingsCheckPresenceOnly`, `SelectorsCheckPresenceOnly`).
- **Slice 5 is written before the send.** `handleInfraestructuraEmprendimientoSubmit`
  stores the last step's values in slice 5
  (`src/components/TRLEvaluationWizard.tsx:87`) before it calls the server
  (`:90-96`). When the send fails, the step index and slices 1–4 are
  unchanged, but slice 5 already holds the values just submitted
  (`Wizard.HandleInfraestructuraEmprendimientoSubmit`).
- **Nothing blocks a second send.** The "Enviar Evaluación" button
  (`src/components/forms/InfraestructuraEmprendimientoForm.tsx:278-280`) is
  never disabled while a send is pending. A press whose values fail
  validation sends nothing (`:91-93` call the handler only on success), but
  every press whose values pass validation calls the server again
  (`Wizard.SubmitInfraestructuraEmprendimiento` appends one more entry to
  the gateway's `sent` log).

## Model

| member | source | states |
|---|---|---|
| StepSchema.Errors | src/components/forms/AreasConocimientoForm.tsx:28-86 | The reported fields are schema fields, every failing check's field is among them, and none is reported exactly when every check holds |
| StepSchema.Parse | src/components/forms/AreasConocimientoForm.tsx:28-86 | Validation succeeds exactly when every check holds. On success the output is the input restricted to the schema's fields (unknown keys are stripped). On failure the error set is non-empty and is the set of fields in error |
| StepSchema.CriterionRules | src/components/forms/AreasConocimientoForm.tsx:28-86 | The per-criterion schema built from a key list has one rating and one justification per key |
| StepSchema.CriterionRulesAccept | src/components/forms/AreasConocimientoForm.tsx:28-86 | A per-criterion schema accepts exactly when every key is present and its `key + "Observacion"` field is present with at least 10 characters (proved by induction on the key list) |
| StepSchema.CriterionRulesNames | src/components/forms/AreasConocimientoForm.tsx:229 | A per-criterion schema's fields are the keys plus their derived `…Observacion` names |
| StepSchema.CriterionRulesLengthChecked | src/components/forms/AreasConocimientoForm.tsx:291 | In a per-criterion schema the length-checked fields are exactly the derived `…Observacion` names |
| StepSchema.GroupRules | src/components/forms/ColaboracionFormacionForm.tsx:28-80 | A group schema has one rating per key plus one shared justification |
| StepSchema.RatingRules | src/components/forms/ColaboracionFormacionForm.tsx:30-50 | A group's rating checks are presence checks on its keys, in order |
| StepSchema.GroupRulesAccept | src/components/forms/ColaboracionFormacionForm.tsx:28-80 | A group schema accepts exactly when every rating of the group is present and the shared justification has at least 10 characters |
| StepSchema.GroupRulesNames | src/components/forms/ColaboracionFormacionForm.tsx:28-80 | A group schema's fields are its keys plus the shared justification, and only the justification is length-checked |
| StepSchema.PresenceOnly | src/components/forms/AreasConocimientoForm.tsx:30-32 | A field checked only for presence gives the same verdict whatever string it holds, `""` included |
| StepSchema.CriterionRatingPresenceOnly | src/components/forms/AreasConocimientoForm.tsx:30-32 | In a per-criterion schema every rating is checked for presence only, provided no key is another key's justification name |
| StepSchema.MissingFieldReported | src/components/forms/AreasConocimientoForm.tsx:28-86 | A schema field that is missing is reported and the parse fails, so the step does not advance |
| StepSchema.BlankErrors | src/components/forms/AreasConocimientoForm.tsx:97-116 | A record holding `""` in every schema field fails on exactly the length-checked fields |
| StepSchema.ForwardUnchanged | src/components/forms/AreasConocimientoForm.tsx:119-121 | An accepted record with only schema fields reaches the submit handler exactly as entered. The other steps' `onSubmit` functions forward in the same way, e.g. TransferenciaInnovacionForm.tsx:95-97 |
| RatingScale.RatingLabel | src/components/forms/AreasConocimientoForm.tsx:211-218 | The label is total over strings and always one of the six scale labels. It is "Muy alto" exactly when the value is not one of "0"–"4" |
| RatingScale.LabelsDistinct | src/components/forms/TransferenciaInnovacionForm.tsx:172-179 | The six scale labels are pairwise distinct |
| RatingScale.RatingOptionsAreDigits | src/components/forms/AreasConocimientoForm.tsx:26 | The offered rating values are exactly the digits "0" to "5", in order |
| RatingScale.OfferedLabels | src/components/forms/InfraestructuraEmprendimientoForm.tsx:177-184 | Offered value `i` shows label `i` of the scale, so the six options show six different labels |
| InformacionGeneral.InitialValues | src/components/forms/InformacionGeneralForm.tsx:85-97 | The form starts from the wizard's saved record when there is one, and from the blank record otherwise |
| InformacionGeneral.Errors | src/components/forms/InformacionGeneralForm.tsx:28-73 | A field is reported exactly when its own check fails, or (explanations only) when the object parse did not abort and its refinement fails |
| InformacionGeneral.Validate | src/components/forms/InformacionGeneralForm.tsx:103-105 | On success the record is forwarded unchanged; on failure at least one field is reported |
| InformacionGeneral.AcceptedIff | src/components/forms/InformacionGeneralForm.tsx:28-73 | Accepted exactly when: name and role are present with length at least 2; email is present and well formed; phone is present with length at least 10; hours are a number at least 1; all four selectors are present; both conditional explanation rules hold |
| InformacionGeneral.StrategyExplanationRequired | src/components/forms/InformacionGeneralForm.tsx:58-65 | With `hasStrategy` at "si" and a missing or short explanation, the record is rejected. The error is on `strategyExplanation` (when the parse did not abort) and never on `hasStrategy` |
| InformacionGeneral.SocializationExplanationRequired | src/components/forms/InformacionGeneralForm.tsx:66-73 | The same rule for `hasSocializedStrategy` and `socializationExplanation` |
| InformacionGeneral.NoRefinementAfterAbort | src/components/forms/InformacionGeneralForm.tsx:28-57 | When a field is missing the parse fails, and neither explanation is reported |
| InformacionGeneral.ExplanationsInertUnlessYes | src/components/forms/InformacionGeneralForm.tsx:53-59 | When a selector is not "si", changing or removing its explanation leaves the reported errors unchanged |
| InformacionGeneral.ShownExactlyWhenRequired | src/components/forms/InformacionGeneralForm.tsx:287 | A hidden explanation (selector not "si") cannot change the verdict, and a shown one, if removed, makes the record rejected. The socialization input at line 329 follows the same rule |
| InformacionGeneral.SelectorsCheckPresenceOnly | src/components/forms/InformacionGeneralForm.tsx:44-56 | Any present string, `""` included, passes the experience, academic-unit and both strategy selectors' own checks |
| InformacionGeneral.PresentValueIrrelevant | src/components/forms/InformacionGeneralForm.tsx:107-131 | Which present string the experience selector or the academic unit holds never changes the errors, so a unit outside the offered list is accepted too |
| InformacionGeneral.UnlistedUnitAccepted | src/components/forms/InformacionGeneralForm.tsx:47-49 | "Otra" is not among the offered units, and a record naming it gets exactly the errors it would get with the first offered unit |
| InformacionGeneral.PhoneCheckedByLengthOnly | src/components/forms/InformacionGeneralForm.tsx:38-40 | The phone is checked by length only: ten letters pass and nine digits fail |
| InformacionGeneral.BlankRejected | src/components/forms/InformacionGeneralForm.tsx:85-97 | The blank record is rejected. Apart from the email, its errors are exactly name, role and phone: the default of 1 hour passes, and with no selector at "si" no explanation is reported |
| AreasConocimiento.InitialValues | src/components/forms/AreasConocimientoForm.tsx:97-116 | The form starts from the saved slice when there is one, and from the all-`""` record otherwise |
| AreasConocimiento.SchemaFollowsCriteria | src/components/forms/AreasConocimientoForm.tsx:123-172 | The declared schema equals the per-criterion schema of the two criterion lists, so every listed key `k` has the schema field `k + "Observacion"` that the JSX derives |
| AreasConocimiento.SchemaFields | src/components/forms/AreasConocimientoForm.tsx:229 | The schema's fields are the nine keys plus their derived names, and the derived names are exactly the length-checked fields |
| AreasConocimiento.AcceptedIff | src/components/forms/AreasConocimientoForm.tsx:28-86 | Accepted exactly when all nine ratings are present and each criterion's own justification has at least 10 characters |
| AreasConocimiento.RatingsCheckPresenceOnly | src/components/forms/AreasConocimientoForm.tsx:30-32 | A rating's value, `""` or "7" alike, never changes the verdict |
| AreasConocimiento.BlankRejected | src/components/forms/AreasConocimientoForm.tsx:97-116 | The all-`""` record is rejected, on exactly the nine justification fields |
| AreasConocimiento.BlankCoversSchema | src/components/forms/AreasConocimientoForm.tsx:97-116 | The blank record holds `""` in every schema field |
| TransferenciaInnovacion.InitialValues | src/components/forms/TransferenciaInnovacionForm.tsx:79-92 | The form starts from the saved slice when there is one, and from the all-`""` record otherwise |
| TransferenciaInnovacion.SchemaFollowsCriteria | src/components/forms/TransferenciaInnovacionForm.tsx:99-133 | The declared schema equals the per-criterion schema of `entorno1..3` and `transferencia1..3`, so each `key + "Observacion"` is a schema field |
| TransferenciaInnovacion.SchemaFields | src/components/forms/TransferenciaInnovacionForm.tsx:190 | The schema's fields are the six keys plus their derived names, and the derived names are exactly the length-checked fields |
| TransferenciaInnovacion.AcceptedIff | src/components/forms/TransferenciaInnovacionForm.tsx:28-68 | Accepted exactly when the six ratings are present and their six justifications each have at least 10 characters |
| TransferenciaInnovacion.RatingsCheckPresenceOnly | src/components/forms/TransferenciaInnovacionForm.tsx:30-32 | A rating's value never changes the verdict |
| TransferenciaInnovacion.BlankRejected | src/components/forms/TransferenciaInnovacionForm.tsx:79-92 | The all-`""` record is rejected, on exactly the six justification fields |
| TransferenciaInnovacion.BlankCoversSchema | src/components/forms/TransferenciaInnovacionForm.tsx:79-92 | The blank record holds `""` in every schema field |
| ColaboracionFormacion.InitialValues | src/components/forms/ColaboracionFormacionForm.tsx:91-108 | The form starts from the saved slice when there is one (`||` acts as `??` on records), and from the all-`""` record otherwise |
| ColaboracionFormacion.SchemaFollowsCriteria | src/components/forms/ColaboracionFormacionForm.tsx:115-189 | The declared schema is the two groups: seven collaboration ratings plus `colaboracionObservacion`, then seven training ratings plus `formacionObservacion` |
| ColaboracionFormacion.ColaboracionGroup | src/components/forms/ColaboracionFormacionForm.tsx:29-53 | The first eight schema fields are the collaboration group |
| ColaboracionFormacion.FormacionGroup | src/components/forms/ColaboracionFormacionForm.tsx:55-79 | The last eight schema fields are the training group |
| ColaboracionFormacion.SchemaFields | src/components/forms/ColaboracionFormacionForm.tsx:115-189 | The schema's fields are the 14 listed rating keys plus the two shared justifications, and only those two are length-checked |
| ColaboracionFormacion.AcceptedIff | src/components/forms/ColaboracionFormacionForm.tsx:28-80 | Accepted exactly when all 14 ratings are present and both shared justifications have at least 10 characters |
| ColaboracionFormacion.RatingsCheckPresenceOnly | src/components/forms/ColaboracionFormacionForm.tsx:30-50 | A rating's value never changes the verdict |
| ColaboracionFormacion.BlankRejected | src/components/forms/ColaboracionFormacionForm.tsx:91-108 | The all-`""` record is rejected, on exactly the two shared justifications |
| InfraestructuraEmprendimiento.InitialValues | src/components/forms/InfraestructuraEmprendimientoForm.tsx:76-88 | The form starts from the saved slice when there is one, and from the all-`""` record otherwise |
| InfraestructuraEmprendimiento.SchemaFollowsCriteria | src/components/forms/InfraestructuraEmprendimientoForm.tsx:95-144 | The declared schema is four infrastructure ratings plus `infraestructuraObservacion`, then five entrepreneurship ratings plus `emprendimientoObservacion` |
| InfraestructuraEmprendimiento.InfraestructuraGroup | src/components/forms/InfraestructuraEmprendimientoForm.tsx:29-44 | The first five schema fields are the infrastructure group |
| InfraestructuraEmprendimiento.EmprendimientoGroup | src/components/forms/InfraestructuraEmprendimientoForm.tsx:46-64 | The last six schema fields are the entrepreneurship group |
| InfraestructuraEmprendimiento.SchemaFields | src/components/forms/InfraestructuraEmprendimientoForm.tsx:95-144 | The schema's fields are the 4 + 5 listed rating keys plus the two shared justifications, and only those two are length-checked |
| InfraestructuraEmprendimiento.AcceptedIff | src/components/forms/InfraestructuraEmprendimientoForm.tsx:28-65 | Accepted exactly when all nine ratings are present and both shared justifications have at least 10 characters |
| InfraestructuraEmprendimiento.RatingsCheckPresenceOnly | src/components/forms/InfraestructuraEmprendimientoForm.tsx:30-41 | A rating's value never changes the verdict |
| InfraestructuraEmprendimiento.BlankRejected | src/components/forms/InfraestructuraEmprendimientoForm.tsx:76-88 | The all-`""` record is rejected, on exactly the two shared justifications |
| TRLEvaluationWizard.NextStep | src/components/TRLEvaluationWizard.tsx:53-55 | The next step is one more than the current one, capped at the last step, and stays in range |
| TRLEvaluationWizard.PreviousStep | src/components/TRLEvaluationWizard.tsx:57-59 | The previous step is one less than the current one, floored at 0, and stays in range |
| TRLEvaluationWizard.RunStaysInRange | src/components/TRLEvaluationWizard.tsx:45-59 | After any sequence of next/previous presses the step is still one of the five (proved by induction on the sequence) |
| TRLEvaluationWizard.NextRepeated | src/components/TRLEvaluationWizard.tsx:53-55 | Pressing "next" n times from the first step reaches step min(n, 4) |
| TRLEvaluationWizard.NextRepeatedFrom | src/components/TRLEvaluationWizard.tsx:53-55 | Pressing "next" n times from any step reaches min(step + n, 4) |
| TRLEvaluationWizard.MovesUndo | src/components/TRLEvaluationWizard.tsx:53-59 | Inside the range "previous" undoes "next" and vice versa; at the ends the buttons leave the step where it is |
| TRLEvaluationWizard.RenderCurrentStep | src/components/TRLEvaluationWizard.tsx:99-144 | A form is rendered exactly for the indices 0–4, and it is the form of that step |
| TRLEvaluationWizard.RenderedFormsStartFromSavedSlice | src/components/TRLEvaluationWizard.tsx:105-138 | Revisiting step k shows its form filled from slice k, or from the blank record when slice k is absent |
| TRLEvaluationWizard.StepTitle | src/components/TRLEvaluationWizard.tsx:169 | The title shown is the current step's own title, `steps[currentStep]`: it is one of the five titles and names no other step |
| TRLEvaluationWizard.StepTitlesDistinct | src/components/TRLEvaluationWizard.tsx:45-51 | The five step titles are pairwise different |
| TRLEvaluationWizard.Decimal | src/components/TRLEvaluationWizard.tsx:156 | A number prints as a non-empty run of decimal digits, one digit exactly when it is below 10 |
| TRLEvaluationWizard.DecimalRoundTrip | src/components/TRLEvaluationWizard.tsx:156 | Reading the printed digits back gives the number |
| TRLEvaluationWizard.ProgressLabelShowsPosition | src/components/TRLEvaluationWizard.tsx:156 | At every step the label is "Paso ", then the digit of step + 1, then " de 5" |
| TRLEvaluationWizard.FormGateway.constructor | src/server/api/routers/form.ts:12-31 | The store starts empty, and no call has been made |
| TRLEvaluationWizard.FormGateway.SubmitForm | src/server/api/routers/form.ts:19-30 | Every call is logged with its input. A successful call appends exactly the submission to the store; a failed call stores nothing |
| TRLEvaluationWizard.Wizard.Shown | src/components/TRLEvaluationWizard.tsx:175 | While the wizard is in a valid state some form is shown, and it is the current step's form |
| TRLEvaluationWizard.Wizard.constructor | src/components/TRLEvaluationWizard.tsx:32-33 | The wizard starts at step 0 with all five slices absent |
| TRLEvaluationWizard.Wizard.GoToNextStep | src/components/TRLEvaluationWizard.tsx:53-55 | The step becomes `NextStep` of the old step and the answers are untouched. Called once the current step's slice is saved, it keeps the invariant that every earlier step's slice is present |
| TRLEvaluationWizard.Wizard.GoToPreviousStep | src/components/TRLEvaluationWizard.tsx:57-59 | The step becomes `PreviousStep` of the old step; the answers are untouched and the invariant is kept |
| TRLEvaluationWizard.Wizard.HandleInformacionGeneralSubmit | src/components/TRLEvaluationWizard.tsx:61-64 | Runs only while index 0 is on screen. Only slice 1 changes, to the submitted record, and the step moves on to index 1, whose earlier slices are now all saved |
| TRLEvaluationWizard.Wizard.HandleAreasConocimientoSubmit | src/components/TRLEvaluationWizard.tsx:66-69 | Runs only while index 1 is on screen. Only slice 2 changes, to the submitted record, and the step moves on to index 2, whose earlier slices are now all saved |
| TRLEvaluationWizard.Wizard.HandleTransferenciaInnovacionSubmit | src/components/TRLEvaluationWizard.tsx:71-74 | Runs only while index 2 is on screen. Only slice 3 changes, to the submitted record, and the step moves on to index 3, whose earlier slices are now all saved |
| TRLEvaluationWizard.Wizard.HandleColaboracionFormacionSubmit | src/components/TRLEvaluationWizard.tsx:76-79 | Runs only while index 3 is on screen. Only slice 4 changes, to the submitted record, and the step moves on to index 4, whose earlier slices are now all saved |
| TRLEvaluationWizard.Wizard.HandleInfraestructuraEmprendimientoSubmit | src/components/TRLEvaluationWizard.tsx:81-97 | Runs only on the last step. The payload is the old answers with only slice 5 replaced, wrapped as `{answers}`, and all five slices are present in it. The payload is handed to the gateway exactly once. The stored answers become that payload and the step does not change. Navigation home happens exactly when the server stored the payload; on failure nothing is stored |
| TRLEvaluationWizard.Wizard.SubmitInformacionGeneral | src/components/forms/InformacionGeneralForm.tsx:103-105 | Offered only while step 1 is on screen. The handler runs exactly when step 1's schema accepts. A rejected record leaves the step and all slices unchanged |
| TRLEvaluationWizard.Wizard.SubmitAreasConocimiento | src/components/forms/AreasConocimientoForm.tsx:119-121 | Offered only while step 2 is on screen. The handler runs with the parsed record exactly when step 2's schema accepts; otherwise nothing changes |
| TRLEvaluationWizard.Wizard.SubmitTransferenciaInnovacion | src/components/forms/TransferenciaInnovacionForm.tsx:95-97 | Offered only while step 3 is on screen. The handler runs with the parsed record exactly when step 3's schema accepts; otherwise nothing changes |
| TRLEvaluationWizard.Wizard.SubmitColaboracionFormacion | src/components/forms/ColaboracionFormacionForm.tsx:111-113 | Offered only while step 4 is on screen. The handler runs with the parsed record exactly when step 4's schema accepts; otherwise nothing changes |
| TRLEvaluationWizard.Wizard.SubmitInfraestructuraEmprendimiento | src/components/forms/InfraestructuraEmprendimientoForm.tsx:91-93 | A rejected record changes nothing and sends nothing. An accepted one replaces slice 5 and is sent to the gateway, once, wrapped as `{answers}` with the other slices, all five present; the step stays where it was |

## Left out

- The server side of `submitForm` (src/server/api/routers/form.ts): the database `create` call, the session's user id stored with each record, and `answers: z.any()`. The server is reduced to `FormGateway`, which stores the submission or fails; why it fails is not modelled.
- `getForms` and the admin listing (src/components/forms-table.tsx): a binding to a data-table library, with no logic of its own. The table queries `obtenerFormularios`, a procedure the router does not define, and its flat row shape does not match the stored `{answers}` record.
- The app pages (src/app/page.tsx, src/app/admin/page.tsx, src/app/TRLEvaluation/page.tsx): authentication, redirects and routing. Step 1's `onGoBack` button leaves the wizard through one of these pages and is not modelled.
- The email format check of `.email()` is zod's own. It is a parameter `isEmail` of step 1's validation.
- `z.coerce.number()`: the model takes the number after coercion. A value that coerces to NaN is `None`, which aborts the parse as a missing field does. Fractional hours are not distinguished from integers.
- Error messages, and the order in which zod lists errors, are not modelled. The model keeps which fields are in error.
- String lengths are Dafny sequence lengths. JavaScript counts UTF-16 code units, so a character outside the Basic Multilingual Plane counts twice there and once here.
- Rendering: the progress-bar width (a floating-point percentage), `alert`, `router.push`, `console.error`, and all JSX and styling. Navigation home is the `navigatedHome` result.
- The form library's watch/re-render cycle: when a form is re-validated is not modelled; each submit validates the record once.
- Concurrency: the asynchronous send is one atomic call to `FormGateway.SubmitForm`. Two overlapping sends are not modelled.
- InformacionGeneral.Validate: when the record is rejected, the contract says only that some field is reported. Which fields are reported is stated by `InformacionGeneral.Errors` and its lemmas.
- Calling a handler on a step other than its own: each handler closure exists only while its step is rendered (src/components/TRLEvaluationWizard.tsx:99-143), and `goToNextStep` is called only from the handlers, after they save their slice. The model's methods require exactly that, so states where a later step is shown while an earlier slice is absent are outside the model.
