/**
  The five-step evaluation wizard: which step is shown, the answers gathered
  so far, and the final hand-over of the whole evaluation to the server.

  The step index and the accumulated answers are two state cells that the
  step handlers update one after another; they are the fields of the class
  `Wizard`. What is rendered, the step titles and the progress label are
  functions of those two cells.
*/
module TRLEvaluationWizard {
  import opened Wrappers
  import StepSchema
  import InformacionGeneral
  import AreasConocimiento
  import TransferenciaInnovacion
  import ColaboracionFormacion
  import InfraestructuraEmprendimiento

  /** The answers gathered so far, one optional slice per step, merged by key. */
  datatype Answers = Answers(
    informacionGeneral: Option<InformacionGeneral.Info>,
    areasConocimiento: Option<StepSchema.Values>,
    transferenciaInnovacion: Option<StepSchema.Values>,
    colaboracionFormacion: Option<StepSchema.Values>,
    infraestructuraEmprendimiento: Option<StepSchema.Values>)

  /** The wizard's starting answers: `{}`, every slice absent. */
  const NoAnswers := Answers(None, None, None, None, None)

  /** The mutation input sent to the server: `{ answers: … }`. */
  datatype Submission = Submission(answers: Answers)

  /** The titles of the five steps, in order; their number fixes the step range. */
  const Steps: seq<string> := [
    "Información General",
    "Áreas de Conocimiento e Investigación",
    "Transferencia de Tecnología y Participación en Innovación",
    "Colaboración y Formación",
    "Infraestructura y Emprendimiento"
  ]

  /** The index of the last step, `steps.length - 1`. */
  const LastStep := |Steps| - 1

  /** A step index the wizard can be at. */
  predicate InRange(step: int) {
    0 <= step <= LastStep
  }

  /**
    The slices of the steps before `step` are all present: the handler of
    step k saves slice k + 1 before moving to step k + 1, so every step the
    wizard reaches has its predecessors' answers.
  */
  predicate SavedBefore(a: Answers, step: int) {
    && (step > 0 ==> a.informacionGeneral.Some?)
    && (step > 1 ==> a.areasConocimiento.Some?)
    && (step > 2 ==> a.transferenciaInnovacion.Some?)
    && (step > 3 ==> a.colaboracionFormacion.Some?)
    && (step > 4 ==> a.infraestructuraEmprendimiento.Some?)
  }

  /** All five slices are present: the answers of a whole evaluation. */
  predicate Complete(a: Answers) {
    && a.informacionGeneral.Some?
    && a.areasConocimiento.Some?
    && a.transferenciaInnovacion.Some?
    && a.colaboracionFormacion.Some?
    && a.infraestructuraEmprendimiento.Some?
  }

  // ---------------------------------------------------------------------------
  // Moving between steps

  /** `Math.min(prev + 1, steps.length - 1)`. */
  function NextStep(step: int): (next: int)
    ensures next <= step + 1 && next <= LastStep
    ensures next == step + 1 || next == LastStep
    ensures InRange(step) ==> InRange(next)
  {
    if step + 1 < LastStep then step + 1 else LastStep
  }

  /** `Math.max(prev - 1, 0)`. */
  function PreviousStep(step: int): (previous: int)
    ensures previous >= step - 1 && previous >= 0
    ensures previous == step - 1 || previous == 0
    ensures InRange(step) ==> InRange(previous)
  {
    if step - 1 > 0 then step - 1 else 0
  }

  /** A button press that moves the wizard. */
  datatype Move = Next | Previous

  /** The step reached from `step` after pressing the buttons in `moves`, in order. */
  function Run(step: int, moves: seq<Move>): int
    decreases |moves|
  {
    if moves == [] then step
    else Run(if moves[0] == Next then NextStep(step) else PreviousStep(step), moves[1..])
  }

  /** Whatever buttons are pressed, the step index stays within the five steps. */
  lemma {:induction false} RunStaysInRange(step: int, moves: seq<Move>)
    requires InRange(step)
    ensures InRange(Run(step, moves))
    decreases |moves|
  {
    if moves != [] {
      RunStaysInRange(if moves[0] == Next then NextStep(step) else PreviousStep(step), moves[1..]);
    }
  }

  /** Pressing "next" `n` times from the first step reaches step `n`, or the last step. */
  lemma {:induction false} NextRepeated(n: nat)
    ensures Run(0, seq(n, _ => Next)) == if n < LastStep then n else LastStep
  {
    NextRepeatedFrom(0, n);
  }

  lemma {:induction false} NextRepeatedFrom(step: int, n: nat)
    requires InRange(step)
    ensures Run(step, seq(n, _ => Next)) == if step + n < LastStep then step + n else LastStep
    decreases n
  {
    if n > 0 {
      var moves := seq(n, _ => Next);
      assert moves[0] == Next && moves[1..] == seq(n - 1, _ => Next);
      NextRepeatedFrom(NextStep(step), n - 1);
    }
  }

  /** Away from the ends of the range, "previous" undoes "next" and "next" undoes "previous". */
  lemma MovesUndo(step: int)
    ensures 0 <= step < LastStep ==> PreviousStep(NextStep(step)) == step
    ensures 0 < step <= LastStep ==> NextStep(PreviousStep(step)) == step
    ensures NextStep(LastStep) == LastStep && PreviousStep(0) == 0
  {
  }

  // ---------------------------------------------------------------------------
  // What is shown

  /** The form rendered for a step, with the saved slice it receives as `defaultValues`. */
  datatype Form =
    | InformacionGeneralForm(generalDefaults: Option<InformacionGeneral.Info>)
    | AreasConocimientoForm(defaultValues: Option<StepSchema.Values>)
    | TransferenciaInnovacionForm(defaultValues: Option<StepSchema.Values>)
    | ColaboracionFormacionForm(defaultValues: Option<StepSchema.Values>)
    | InfraestructuraEmprendimientoForm(defaultValues: Option<StepSchema.Values>)
  {
    /** The position of this form's step in the wizard. */
    function Position(): nat {
      match this
      case InformacionGeneralForm(_) => 0
      case AreasConocimientoForm(_) => 1
      case TransferenciaInnovacionForm(_) => 2
      case ColaboracionFormacionForm(_) => 3
      case InfraestructuraEmprendimientoForm(_) => 4
    }
  }

  /** `renderCurrentStep`: the form of the current step, or nothing (`null`) for any other index. */
  function RenderCurrentStep(step: int, data: Answers): (shown: Option<Form>)
    ensures shown.Some? <==> InRange(step)
    ensures shown.Some? ==> shown.value.Position() == step
  {
    match step
    case 0 => Some(InformacionGeneralForm(data.informacionGeneral))
    case 1 => Some(AreasConocimientoForm(data.areasConocimiento))
    case 2 => Some(TransferenciaInnovacionForm(data.transferenciaInnovacion))
    case 3 => Some(ColaboracionFormacionForm(data.colaboracionFormacion))
    case 4 => Some(InfraestructuraEmprendimientoForm(data.infraestructuraEmprendimiento))
    case _ => None
  }

  /**
    A step's form starts from the slice saved for that step, and from the
    form's blank record while nothing is saved.
  */
  lemma RenderedFormsStartFromSavedSlice(data: Answers)
    ensures InformacionGeneral.InitialValues(RenderCurrentStep(0, data).value.generalDefaults)
      == data.informacionGeneral.GetOr(InformacionGeneral.Blank)
    ensures AreasConocimiento.InitialValues(RenderCurrentStep(1, data).value.defaultValues)
      == data.areasConocimiento.GetOr(AreasConocimiento.Blank)
    ensures TransferenciaInnovacion.InitialValues(RenderCurrentStep(2, data).value.defaultValues)
      == data.transferenciaInnovacion.GetOr(TransferenciaInnovacion.Blank)
    ensures ColaboracionFormacion.InitialValues(RenderCurrentStep(3, data).value.defaultValues)
      == data.colaboracionFormacion.GetOr(ColaboracionFormacion.Blank)
    ensures InfraestructuraEmprendimiento.InitialValues(RenderCurrentStep(4, data).value.defaultValues)
      == data.infraestructuraEmprendimiento.GetOr(InfraestructuraEmprendimiento.Blank)
  {
  }

  /** No two steps share a title (their lengths already differ). */
  lemma StepTitlesDistinct()
    ensures forall i, j :: InRange(i) && InRange(j) && Steps[i] == Steps[j] ==> i == j
  {
    assert |Steps[0]| == 19 && |Steps[1]| == 37 && |Steps[2]| == 57;
    assert |Steps[3]| == 24 && |Steps[4]| == 32;
  }

  /** The title shown under the progress bar, `steps[currentStep]`: it names this step and no other. */
  function StepTitle(step: int): (title: string)
    requires InRange(step)
    ensures title in Steps
    ensures forall j :: InRange(j) && Steps[j] == title ==> j == step
  {
    StepTitlesDistinct();
    Steps[step]
  }

  /** The decimal digit for a value below ten. */
  function DigitChar(d: nat): (c: char)
    requires d < 10
    ensures '0' <= c <= '9'
  {
    ('0' as int + d) as char
  }

  /** A natural number written in decimal, as JavaScript prints it inside text. */
  function Decimal(n: nat): (s: string)
    ensures 1 <= |s|
    ensures forall i :: 0 <= i < |s| ==> '0' <= s[i] <= '9'
    ensures n < 10 <==> |s| == 1
  {
    if n < 10 then [DigitChar(n)] else Decimal(n / 10) + [DigitChar(n % 10)]
  }

  /** The value of a string of decimal digits. */
  function DecimalValue(s: string): nat
    requires forall i :: 0 <= i < |s| ==> '0' <= s[i] <= '9'
  {
    if s == [] then 0
    else 10 * DecimalValue(s[..|s| - 1]) + (s[|s| - 1] as int - '0' as int)
  }

  /** Reading a printed number back gives the number. */
  lemma {:induction false} DecimalRoundTrip(n: nat)
    ensures DecimalValue(Decimal(n)) == n
  {
    var s := Decimal(n);
    if n >= 10 {
      DecimalRoundTrip(n / 10);
      assert s[..|s| - 1] == Decimal(n / 10);
    }
  }

  /** The progress text: "Paso {currentStep + 1} de {steps.length}". */
  function ProgressLabel(step: nat): string {
    "Paso " + Decimal(step + 1) + " de " + Decimal(|Steps|)
  }

  /**
    At every step the label reads "Paso ", then one digit whose value is the
    step's one-based position, then " de 5".
  */
  lemma ProgressLabelShowsPosition(step: nat)
    requires InRange(step)
    ensures |ProgressLabel(step)| == 11
    ensures ProgressLabel(step)[..5] == "Paso " && ProgressLabel(step)[6..] == " de 5"
    ensures ProgressLabel(step)[5] as int - '0' as int == step + 1
  {
    var text := ProgressLabel(step);
    assert Decimal(|Steps|) == "5";
    assert text == "Paso " + [DigitChar(step + 1)] + " de 5";
  }

  // ---------------------------------------------------------------------------
  // The server

  /**
    The `submitForm` mutation, seen from the wizard: it stores the submission
    and succeeds, or fails and stores nothing. Why it fails (network,
    database) is not modelled, so either outcome may happen. Every call is
    recorded in `sent`, whatever its outcome.
  */
  class FormGateway {
    /** The submissions stored so far, oldest first. */
    var stored: seq<Submission>
    /** Every input the mutation was called with, oldest first. */
    ghost var sent: seq<Submission>

    constructor()
      ensures stored == [] && sent == []
    {
      stored := [];
      sent := [];
    }

    method SubmitForm(input: Submission) returns (ok: bool)
      modifies this
      ensures sent == old(sent) + [input]
      ensures ok ==> stored == old(stored) + [input]
      ensures !ok ==> stored == old(stored)
    {
      sent := sent + [input];
      ok :| true;
      if ok {
        stored := stored + [input];
      }
    }
  }

  // ---------------------------------------------------------------------------
  // The wizard

  class Wizard {
    /** The index of the step on screen. */
    var currentStep: int
    var informacionGeneral: Option<InformacionGeneral.Info>
    var areasConocimiento: Option<StepSchema.Values>
    var transferenciaInnovacion: Option<StepSchema.Values>
    var colaboracionFormacion: Option<StepSchema.Values>
    var infraestructuraEmprendimiento: Option<StepSchema.Values>

    /**
      The step index is always one of the five steps, and the slices of all
      earlier steps have been saved.
    */
    predicate Valid()
      reads this
    {
      InRange(currentStep) && SavedBefore(FormData(), currentStep)
    }

    /** The `formData` state: the five slices as one record. */
    function FormData(): Answers
      reads this
    {
      Answers(informacionGeneral, areasConocimiento, transferenciaInnovacion,
              colaboracionFormacion, infraestructuraEmprendimiento)
    }

    /** The form on screen: the wizard's step is always in range, so some form is shown. */
    function Shown(): (form: Form)
      reads this
      requires Valid()
      ensures form.Position() == currentStep
    {
      RenderCurrentStep(currentStep, FormData()).value
    }

    /** The wizard opens on the first step with nothing saved. */
    constructor()
      ensures Valid()
      ensures currentStep == 0 && FormData() == NoAnswers
    {
      currentStep := 0;
      informacionGeneral := None;
      areasConocimiento := None;
      transferenciaInnovacion := None;
      colaboracionFormacion := None;
      infraestructuraEmprendimiento := None;
    }

    /**
      `goToNextStep`: one step forward, staying on the last step. The wizard
      calls it only from a step's handler, once that step's slice is saved.
    */
    method GoToNextStep()
      modifies this
      requires Valid() && SavedBefore(FormData(), NextStep(currentStep))
      ensures Valid()
      ensures currentStep == NextStep(old(currentStep))
      ensures FormData() == old(FormData())
    {
      currentStep := NextStep(currentStep);
    }

    /** `goToPreviousStep`: one step back, staying on the first step; the answers are kept. */
    method GoToPreviousStep()
      modifies this
      requires Valid()
      ensures Valid()
      ensures currentStep == PreviousStep(old(currentStep))
      ensures FormData() == old(FormData())
    {
      currentStep := PreviousStep(currentStep);
    }

    /** `handleInformacionGeneralSubmit`: save slice 1 only, then move forward. */
    method HandleInformacionGeneralSubmit(data: InformacionGeneral.Info)
      modifies this
      requires Valid() && currentStep == 0
      ensures Valid()
      ensures FormData() == old(FormData()).(informacionGeneral := Some(data))
      ensures currentStep == NextStep(old(currentStep)) == 1
    {
      informacionGeneral := Some(data);
      GoToNextStep();
    }

    /** `handleAreasConocimientoSubmit`: save slice 2 only, then move forward. */
    method HandleAreasConocimientoSubmit(data: StepSchema.Values)
      modifies this
      requires Valid() && currentStep == 1
      ensures Valid()
      ensures FormData() == old(FormData()).(areasConocimiento := Some(data))
      ensures currentStep == NextStep(old(currentStep)) == 2
    {
      areasConocimiento := Some(data);
      GoToNextStep();
    }

    /** `handleTransferenciaInnovacionSubmit`: save slice 3 only, then move forward. */
    method HandleTransferenciaInnovacionSubmit(data: StepSchema.Values)
      modifies this
      requires Valid() && currentStep == 2
      ensures Valid()
      ensures FormData() == old(FormData()).(transferenciaInnovacion := Some(data))
      ensures currentStep == NextStep(old(currentStep)) == 3
    {
      transferenciaInnovacion := Some(data);
      GoToNextStep();
    }

    /** `handleColaboracionFormacionSubmit`: save slice 4 only, then move forward. */
    method HandleColaboracionFormacionSubmit(data: StepSchema.Values)
      modifies this
      requires Valid() && currentStep == 3
      ensures Valid()
      ensures FormData() == old(FormData()).(colaboracionFormacion := Some(data))
      ensures currentStep == NextStep(old(currentStep)) == 4
    {
      colaboracionFormacion := Some(data);
      GoToNextStep();
    }

    /**
      `handleInfraestructuraEmprendimientoSubmit`: build the complete answers
      from the saved slices and the last step's values, save slice 5, and
      send `{ answers }` to the server. The step never changes here; the app
      navigates home exactly when the server stored the submission, and a
      failure is caught and leaves the other four slices and the step as
      they were.
    */
    method HandleInfraestructuraEmprendimientoSubmit(data: StepSchema.Values, gateway: FormGateway)
      returns (payload: Submission, navigatedHome: bool)
      modifies this, gateway
      requires Valid() && currentStep == LastStep
      ensures Valid()
      ensures payload == Submission(old(FormData()).(infraestructuraEmprendimiento := Some(data)))
      ensures Complete(payload.answers)
      ensures gateway.sent == old(gateway.sent) + [payload]
      ensures FormData() == payload.answers
      ensures currentStep == old(currentStep)
      ensures navigatedHome ==> gateway.stored == old(gateway.stored) + [payload]
      ensures !navigatedHome ==> gateway.stored == old(gateway.stored)
    {
      var completeFormData := FormData().(infraestructuraEmprendimiento := Some(data));
      infraestructuraEmprendimiento := Some(data);
      payload := Submission(completeFormData);
      navigatedHome := gateway.SubmitForm(payload);
    }

    // Pressing a step's submit button: the step's schema decides whether its
    // handler runs, and a rejected record changes nothing in the wizard.

    /** Submitting step 1: on success slice 1 holds the record and the wizard moves forward. */
    method SubmitInformacionGeneral(r: InformacionGeneral.Info, isEmail: string -> bool)
      returns (outcome: Result<InformacionGeneral.Info, set<InformacionGeneral.Field>>)
      modifies this
      requires Valid() && currentStep == 0
      ensures Valid()
      ensures outcome == InformacionGeneral.Validate(r, isEmail)
      ensures outcome.Ok? ==> FormData() == old(FormData()).(informacionGeneral := Some(r))
      ensures outcome.Ok? ==> currentStep == NextStep(old(currentStep)) == 1
      ensures outcome.Err? ==> FormData() == old(FormData()) && currentStep == old(currentStep)
    {
      outcome := InformacionGeneral.Validate(r, isEmail);
      if outcome.Ok? {
        HandleInformacionGeneralSubmit(outcome.value);
      }
    }

    /** Submitting step 2: on success slice 2 holds the validated record and the wizard moves forward. */
    method SubmitAreasConocimiento(v: StepSchema.Values)
      returns (outcome: Result<StepSchema.Values, set<string>>)
      modifies this
      requires Valid() && currentStep == 1
      ensures Valid()
      ensures outcome == StepSchema.Parse(AreasConocimiento.Schema, v)
      ensures outcome.Ok? ==> FormData() == old(FormData()).(areasConocimiento := Some(outcome.value))
      ensures outcome.Ok? ==> currentStep == NextStep(old(currentStep)) == 2
      ensures outcome.Err? ==> FormData() == old(FormData()) && currentStep == old(currentStep)
    {
      outcome := StepSchema.Parse(AreasConocimiento.Schema, v);
      if outcome.Ok? {
        HandleAreasConocimientoSubmit(outcome.value);
      }
    }

    /** Submitting step 3: on success slice 3 holds the validated record and the wizard moves forward. */
    method SubmitTransferenciaInnovacion(v: StepSchema.Values)
      returns (outcome: Result<StepSchema.Values, set<string>>)
      modifies this
      requires Valid() && currentStep == 2
      ensures Valid()
      ensures outcome == StepSchema.Parse(TransferenciaInnovacion.Schema, v)
      ensures outcome.Ok? ==> FormData() == old(FormData()).(transferenciaInnovacion := Some(outcome.value))
      ensures outcome.Ok? ==> currentStep == NextStep(old(currentStep)) == 3
      ensures outcome.Err? ==> FormData() == old(FormData()) && currentStep == old(currentStep)
    {
      outcome := StepSchema.Parse(TransferenciaInnovacion.Schema, v);
      if outcome.Ok? {
        HandleTransferenciaInnovacionSubmit(outcome.value);
      }
    }

    /** Submitting step 4: on success slice 4 holds the validated record and the wizard moves forward. */
    method SubmitColaboracionFormacion(v: StepSchema.Values)
      returns (outcome: Result<StepSchema.Values, set<string>>)
      modifies this
      requires Valid() && currentStep == 3
      ensures Valid()
      ensures outcome == StepSchema.Parse(ColaboracionFormacion.Schema, v)
      ensures outcome.Ok? ==> FormData() == old(FormData()).(colaboracionFormacion := Some(outcome.value))
      ensures outcome.Ok? ==> currentStep == NextStep(old(currentStep)) == 4
      ensures outcome.Err? ==> FormData() == old(FormData()) && currentStep == old(currentStep)
    {
      outcome := StepSchema.Parse(ColaboracionFormacion.Schema, v);
      if outcome.Ok? {
        HandleColaboracionFormacionSubmit(outcome.value);
      }
    }

    /**
      Submitting step 5 ("Enviar Evaluación"): a rejected record changes
      nothing and sends nothing; an accepted one goes to the final handler.
    */
    method SubmitInfraestructuraEmprendimiento(v: StepSchema.Values, gateway: FormGateway)
      returns (outcome: Result<StepSchema.Values, set<string>>, navigatedHome: bool)
      modifies this, gateway
      requires Valid() && currentStep == LastStep
      ensures Valid()
      ensures outcome == StepSchema.Parse(InfraestructuraEmprendimiento.Schema, v)
      ensures outcome.Ok? ==> Complete(FormData())
      ensures outcome.Ok? ==> gateway.sent == old(gateway.sent) + [Submission(FormData())]
      ensures currentStep == old(currentStep)
      ensures outcome.Ok? ==> FormData() == old(FormData()).(infraestructuraEmprendimiento := Some(outcome.value))
      ensures outcome.Ok? && navigatedHome ==> gateway.stored == old(gateway.stored) + [Submission(FormData())]
      ensures outcome.Ok? && !navigatedHome ==> gateway.stored == old(gateway.stored)
      ensures outcome.Err? ==> FormData() == old(FormData()) && !navigatedHome && gateway.stored == old(gateway.stored)
      ensures outcome.Err? ==> gateway.sent == old(gateway.sent)
    {
      outcome := StepSchema.Parse(InfraestructuraEmprendimiento.Schema, v);
      navigatedHome := false;
      if outcome.Ok? {
        var _, sent := HandleInfraestructuraEmprendimientoSubmit(outcome.value, gateway);
        navigatedHome := sent;
      }
    }
  }
}
