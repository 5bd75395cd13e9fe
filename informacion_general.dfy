/**
  Step 1 of the survey, "Información General": who answers and whether the
  academic unit has a CTI+e strategy.

  Its zod object checks each field on its own and then runs two whole-record
  refinements: an explanation is required only when its yes/no selector
  holds "si", and the error is reported on the explanation, not the selector.
  A field that is missing (or a number that coerces to NaN) makes the object
  parse abort, and the refinements do not run; a present value that is too
  short only marks the parse dirty, and the refinements still run.
*/
module InformacionGeneral {
  import opened Wrappers

  /**
    The step's values. `dedicationHours` is the number after `z.coerce.number()`;
    `None` stands for a coercion that gives NaN. The two explanations are
    `.optional()`.
  */
  datatype Info = Info(
    fullName: Option<string>,
    role: Option<string>,
    email: Option<string>,
    phone: Option<string>,
    dedicationHours: Option<int>,
    hasExperience: Option<string>,
    academicUnit: Option<string>,
    hasStrategy: Option<string>,
    strategyExplanation: Option<string>,
    hasSocializedStrategy: Option<string>,
    socializationExplanation: Option<string>)

  /** The field names of the record, as the paths errors are reported on. */
  datatype Field =
    | FullName | Role | Email | Phone | DedicationHours | HasExperience | AcademicUnit
    | HasStrategy | StrategyExplanation | HasSocializedStrategy | SocializationExplanation

  const MinName := 2
  const MinPhone := 10
  const MinHours := 1
  const MinExplanation := 10

  /** The selector value that makes an explanation required. */
  const Yes := "si"

  /** The academic units offered by the `academicUnit` select. */
  const AcademicUnits: seq<string> := [
    "Corporación Académica Ambiental",
    "Escuela de Idiomas",
    "Escuela de Microbiología",
    "Escuela de Nutrición y Dietética",
    "Escuela Interameriacana de Bibliotecologia",
    "Facultad de Artes",
    "Facultad de Ciencias Agrarias",
    "Facultad de Ciencias Económicas",
    "Facultad de Ciencias Exactas y Naturales",
    "Facultad de Ciencias Farmacéuticas y Alimentarias",
    "Facultad de Ciencias Sociales y Humanas",
    "Facultad de Comunicaciones",
    "Facultad de Derecho y Ciencias Políticas",
    "Facultad de Educación",
    "Facultad de Enfermería",
    "Facultad de Ingeniería",
    "Facultad de Medicina",
    "Facultad de Odontología",
    "Facultad Nacional de Salud Pública",
    "Instituto de Educación Fisica y Deporte",
    "Instituto de Estudios Políticos",
    "Instituto de Estudios Regionales",
    "Instituto de Filosofía"
  ]

  /** The values the form starts from when the wizard has nothing for this step. */
  const Blank := Info(
    fullName := Some(""), role := Some(""), email := Some(""), phone := Some(""),
    dedicationHours := Some(1), hasExperience := Some(""), academicUnit := Some(""),
    hasStrategy := Some(""), strategyExplanation := Some(""),
    hasSocializedStrategy := Some(""), socializationExplanation := Some(""))

  /** `defaultValues ?? {…}`: the wizard's saved values, or the blank record. */
  function InitialValues(prefill: Option<Info>): (r: Info)
    ensures prefill.Some? ==> r == prefill.value
    ensures prefill.None? ==> r == Blank
  {
    prefill.GetOr(Blank)
  }

  /** `z.string().min(n)` on an optional value: present and at least `n` long. */
  predicate LongEnough(s: Option<string>, n: nat) {
    s.Some? && |s.value| >= n
  }

  /** A missing value makes the object parse abort before the refinements. */
  predicate Aborted(r: Info) {
    || r.fullName.None? || r.role.None? || r.email.None? || r.phone.None?
    || r.dedicationHours.None? || r.hasExperience.None? || r.academicUnit.None?
    || r.hasStrategy.None? || r.hasSocializedStrategy.None?
  }

  /**
    One `.refine`: when the selector holds "si", the explanation must be a
    string of at least ten characters (`!explanation` also rejects `""`).
  */
  predicate ExplanationOk(selector: Option<string>, explanation: Option<string>) {
    selector == Some(Yes) ==> LongEnough(explanation, MinExplanation)
  }

  /**
    Whether the parse reports field `f`. The first nine are the fields' own
    checks; `isEmail` is the string format check of `.email()`. The last two
    are the refinements, which run only when the object parse did not abort.
  */
  predicate Reported(r: Info, isEmail: string -> bool, f: Field) {
    match f
    case FullName => !LongEnough(r.fullName, MinName)
    case Role => !LongEnough(r.role, MinName)
    case Email => !(r.email.Some? && isEmail(r.email.value))
    case Phone => !LongEnough(r.phone, MinPhone)
    case DedicationHours => !(r.dedicationHours.Some? && r.dedicationHours.value >= MinHours)
    case HasExperience => r.hasExperience.None?
    case AcademicUnit => r.academicUnit.None?
    case HasStrategy => r.hasStrategy.None?
    case HasSocializedStrategy => r.hasSocializedStrategy.None?
    case StrategyExplanation =>
      !Aborted(r) && !ExplanationOk(r.hasStrategy, r.strategyExplanation)
    case SocializationExplanation =>
      !Aborted(r) && !ExplanationOk(r.hasSocializedStrategy, r.socializationExplanation)
  }

  /** Every field of the record. */
  const Fields: set<Field> := {
    FullName, Role, Email, Phone, DedicationHours, HasExperience, AcademicUnit,
    HasStrategy, StrategyExplanation, HasSocializedStrategy, SocializationExplanation
  }

  /** The fields the parse reports in error. */
  function Errors(r: Info, isEmail: string -> bool): (errs: set<Field>)
    ensures forall f :: f in errs <==> Reported(r, isEmail, f)
  {
    set f | f in Fields && Reported(r, isEmail, f)
  }

  /**
    The step's submit: the validated values are forwarded to `onNext`
    unchanged, or the fields in error are reported and nothing is forwarded.
  */
  function Validate(r: Info, isEmail: string -> bool): (v: Result<Info, set<Field>>)
    ensures v.Ok? ==> v.value == r
    ensures v.Err? ==> v.error != {}
  {
    var errs := Errors(r, isEmail);
    if errs == {} then Ok(r) else Err(errs)
  }

  /** The strategy explanation input is rendered exactly when its selector holds "si". */
  predicate ShowsStrategyExplanation(r: Info) {
    r.hasStrategy == Some(Yes)
  }

  /** The socialization explanation input is rendered exactly when its selector holds "si". */
  predicate ShowsSocializationExplanation(r: Info) {
    r.hasSocializedStrategy == Some(Yes)
  }

  // ---------------------------------------------------------------------------
  // Properties

  /** The record is accepted exactly when every field check and both conditional rules hold. */
  lemma AcceptedIff(r: Info, isEmail: string -> bool)
    ensures Validate(r, isEmail).Ok? <==>
      && LongEnough(r.fullName, MinName)
      && LongEnough(r.role, MinName)
      && r.email.Some? && isEmail(r.email.value)
      && LongEnough(r.phone, MinPhone)
      && r.dedicationHours.Some? && r.dedicationHours.value >= MinHours
      && r.hasExperience.Some? && r.academicUnit.Some?
      && r.hasStrategy.Some? && r.hasSocializedStrategy.Some?
      && ExplanationOk(r.hasStrategy, r.strategyExplanation)
      && ExplanationOk(r.hasSocializedStrategy, r.socializationExplanation)
  {
    if Validate(r, isEmail).Ok? {
      assert !Reported(r, isEmail, FullName) && !Reported(r, isEmail, Role);
      assert !Reported(r, isEmail, Email) && !Reported(r, isEmail, Phone);
      assert !Reported(r, isEmail, DedicationHours) && !Reported(r, isEmail, HasExperience);
      assert !Reported(r, isEmail, AcademicUnit) && !Reported(r, isEmail, HasStrategy);
      assert !Reported(r, isEmail, HasSocializedStrategy);
      assert !Reported(r, isEmail, StrategyExplanation) && !Reported(r, isEmail, SocializationExplanation);
    } else {
      var f :| f in Errors(r, isEmail);
    }
  }

  /**
    With "si" selected, a missing or short strategy explanation rejects the
    record; the error names the explanation (once the object parse did not
    abort) and never the selector.
  */
  lemma StrategyExplanationRequired(r: Info, isEmail: string -> bool)
    requires r.hasStrategy == Some(Yes) && !LongEnough(r.strategyExplanation, MinExplanation)
    ensures Validate(r, isEmail).Err?
    ensures !Aborted(r) ==> StrategyExplanation in Errors(r, isEmail)
    ensures HasStrategy !in Errors(r, isEmail)
  {
    AcceptedIff(r, isEmail);
  }

  /** The same rule for the socialization explanation, with its error on that field. */
  lemma SocializationExplanationRequired(r: Info, isEmail: string -> bool)
    requires r.hasSocializedStrategy == Some(Yes) && !LongEnough(r.socializationExplanation, MinExplanation)
    ensures Validate(r, isEmail).Err?
    ensures !Aborted(r) ==> SocializationExplanation in Errors(r, isEmail)
    ensures HasSocializedStrategy !in Errors(r, isEmail)
  {
    AcceptedIff(r, isEmail);
  }

  /** A missing field stops the parse before the refinements, so no explanation error is reported. */
  lemma NoRefinementAfterAbort(r: Info, isEmail: string -> bool)
    requires Aborted(r)
    ensures StrategyExplanation !in Errors(r, isEmail)
    ensures SocializationExplanation !in Errors(r, isEmail)
    ensures Errors(r, isEmail) != {}
  {
    var missing :=
      if r.fullName.None? then FullName
      else if r.role.None? then Role
      else if r.email.None? then Email
      else if r.phone.None? then Phone
      else if r.dedicationHours.None? then DedicationHours
      else if r.hasExperience.None? then HasExperience
      else if r.academicUnit.None? then AcademicUnit
      else if r.hasStrategy.None? then HasStrategy
      else HasSocializedStrategy;
    assert missing in Errors(r, isEmail);
  }

  /**
    When a selector is anything but "si" (absent, "no", ""), its explanation
    is unconstrained: replacing it by any value, or removing it, leaves the
    reported errors as they were.
  */
  lemma ExplanationsInertUnlessYes(r: Info, isEmail: string -> bool, e: Option<string>)
    ensures r.hasStrategy != Some(Yes) ==>
      Errors(r.(strategyExplanation := e), isEmail) == Errors(r, isEmail)
    ensures r.hasSocializedStrategy != Some(Yes) ==>
      Errors(r.(socializationExplanation := e), isEmail) == Errors(r, isEmail)
  {
  }

  /**
    Each explanation input is shown exactly when its value can change the
    verdict: hidden explanations are inert, and a shown one must be filled in.
  */
  lemma ShownExactlyWhenRequired(r: Info, isEmail: string -> bool)
    ensures !ShowsStrategyExplanation(r) ==>
      Validate(r.(strategyExplanation := None), isEmail).Ok? == Validate(r, isEmail).Ok?
    ensures ShowsStrategyExplanation(r) ==>
      Validate(r.(strategyExplanation := None), isEmail).Err?
    ensures !ShowsSocializationExplanation(r) ==>
      Validate(r.(socializationExplanation := None), isEmail).Ok? == Validate(r, isEmail).Ok?
    ensures ShowsSocializationExplanation(r) ==>
      Validate(r.(socializationExplanation := None), isEmail).Err?
  {
    ExplanationsInertUnlessYes(r, isEmail, None);
    AcceptedIff(r.(strategyExplanation := None), isEmail);
    AcceptedIff(r.(socializationExplanation := None), isEmail);
  }

  /**
    The selectors and the academic unit are checked for presence only: any
    present string passes its own check, `""` included.
  */
  lemma SelectorsCheckPresenceOnly(r: Info, isEmail: string -> bool, s: string)
    ensures HasExperience !in Errors(r.(hasExperience := Some(s)), isEmail)
    ensures AcademicUnit !in Errors(r.(academicUnit := Some(s)), isEmail)
    ensures HasStrategy !in Errors(r.(hasStrategy := Some(s)), isEmail)
    ensures HasSocializedStrategy !in Errors(r.(hasSocializedStrategy := Some(s)), isEmail)
  {
  }

  /**
    Which present string the experience selector or the academic unit holds
    never changes the reported errors, so a unit outside `AcademicUnits` is
    accepted as readily as one in it.
  */
  lemma PresentValueIrrelevant(r: Info, isEmail: string -> bool, s: string, t: string)
    ensures Errors(r.(hasExperience := Some(s)), isEmail) == Errors(r.(hasExperience := Some(t)), isEmail)
    ensures Errors(r.(academicUnit := Some(s)), isEmail) == Errors(r.(academicUnit := Some(t)), isEmail)
  {
  }

  /**
    A unit the select does not offer, such as "Otra", fares exactly like the
    first offered unit: the offered list plays no part in validation.
  */
  lemma UnlistedUnitAccepted(r: Info, isEmail: string -> bool)
    ensures "Otra" !in AcademicUnits
    ensures Errors(r.(academicUnit := Some("Otra")), isEmail)
         == Errors(r.(academicUnit := Some(AcademicUnits[0])), isEmail)
  {
    forall u | u in AcademicUnits
      ensures |u| > 4
    {
    }
    PresentValueIrrelevant(r, isEmail, "Otra", AcademicUnits[0]);
  }

  /** The phone is checked by length alone: ten letters pass, nine digits do not. */
  lemma PhoneCheckedByLengthOnly(r: Info, isEmail: string -> bool)
    ensures Phone !in Errors(r.(phone := Some("abcdefghij")), isEmail)
    ensures Phone in Errors(r.(phone := Some("300123456")), isEmail)
  {
  }

  /**
    The blank record is rejected: the name, role and phone are too short,
    while the default one hour of dedication passes and, with no selector at
    "si", neither explanation is reported.
  */
  lemma BlankRejected(isEmail: string -> bool)
    ensures Validate(Blank, isEmail).Err?
    ensures Errors(Blank, isEmail) - {Email} == {FullName, Role, Phone}
  {
    assert FullName in Errors(Blank, isEmail);
  }
}
