/**
  Step 5 of the survey, "Infraestructura y Emprendimiento": nine criteria in
  two groups (technological infrastructure, entrepreneurship management),
  each rated, with one justification of at least ten characters shared by
  each group. The schema has no cross-field rule. Its submit forwards the
  validated values to the wizard's final handler.
*/
module InfraestructuraEmprendimiento {
  import opened Wrappers
  import opened StepSchema

  /** The infrastructure criteria, in display order. */
  const InfraestructuraCriterios: seq<string> := ["infraestructura1", "infraestructura2", "infraestructura3", "infraestructura4"]

  /** The entrepreneurship criteria, in display order. */
  const EmprendimientoCriterios: seq<string> := ["emprendimiento1", "emprendimiento2", "emprendimiento3", "emprendimiento4", "emprendimiento5"]

  const Criterios: seq<string> := InfraestructuraCriterios + EmprendimientoCriterios

  /** The justification shared by the first group. */
  const InfraestructuraObservacion := "infraestructuraObservacion"

  /** The justification shared by the second group. */
  const EmprendimientoObservacion := "emprendimientoObservacion"

  /** The step's zod object, field by field as declared. */
  const Schema: seq<Rule> := [
    Required("infraestructura1"),
    Required("infraestructura2"),
    Required("infraestructura3"),
    Required("infraestructura4"),
    MinLength("infraestructuraObservacion", 10),
    Required("emprendimiento1"),
    Required("emprendimiento2"),
    Required("emprendimiento3"),
    Required("emprendimiento4"),
    Required("emprendimiento5"),
    MinLength("emprendimientoObservacion", 10)
  ]

  /** The values the form starts from when the wizard has nothing for this step. */
  const Blank: Values := map[
    "infraestructura1" := "",
    "infraestructura2" := "",
    "infraestructura3" := "",
    "infraestructura4" := "",
    "infraestructuraObservacion" := "",
    "emprendimiento1" := "",
    "emprendimiento2" := "",
    "emprendimiento3" := "",
    "emprendimiento4" := "",
    "emprendimiento5" := "",
    "emprendimientoObservacion" := ""
  ]

  /** `defaultValues ?? {…}`: the wizard's saved values, or the blank record. */
  function InitialValues(prefill: Option<Values>): (v: Values)
    ensures prefill.Some? ==> v == prefill.value
    ensures prefill.None? ==> v == Blank
  {
    prefill.GetOr(Blank)
  }

  /**
    The declared schema is the two groups of the criterion lists: each
    group's ratings in display order, then the group's one justification.
  */
  lemma SchemaFollowsCriteria()
    ensures Schema == GroupRules(InfraestructuraCriterios, InfraestructuraObservacion) + GroupRules(EmprendimientoCriterios, EmprendimientoObservacion)
  {
    InfraestructuraGroup();
    EmprendimientoGroup();
    assert Schema == Schema[..5] + Schema[5..];
  }

  /** The first 5 fields of the schema are the first group. */
  lemma InfraestructuraGroup()
    ensures Schema[..5] == GroupRules(InfraestructuraCriterios, InfraestructuraObservacion)
  {
  }

  /** The last 6 fields of the schema are the second group. */
  lemma EmprendimientoGroup()
    ensures Schema[5..] == GroupRules(EmprendimientoCriterios, EmprendimientoObservacion)
  {
  }

  /**
    The schema's fields are the 9 criterion keys and the two shared
    justifications, and only the justifications are length-checked.
  */
  lemma SchemaFields()
    ensures Names(Schema) == (set k | k in Criterios) + {InfraestructuraObservacion, EmprendimientoObservacion}
    ensures LengthCheckedNames(Schema) == {InfraestructuraObservacion, EmprendimientoObservacion}
  {
    var first := GroupRules(InfraestructuraCriterios, InfraestructuraObservacion);
    var second := GroupRules(EmprendimientoCriterios, EmprendimientoObservacion);
    SchemaFollowsCriteria();
    NamesAppend(first, second);
    LengthCheckedAppend(first, second);
    GroupRulesNames(InfraestructuraCriterios, InfraestructuraObservacion);
    GroupRulesNames(EmprendimientoCriterios, EmprendimientoObservacion);
  }

  /**
    A record is accepted exactly when all 9 ratings are present and each
    group's shared justification is present with at least ten characters.
  */
  lemma AcceptedIff(v: Values)
    ensures Parse(Schema, v).Ok? <==>
      && (forall k :: k in Criterios ==> k in v)
      && InfraestructuraObservacion in v && |v[InfraestructuraObservacion]| >= MinObservation
      && EmprendimientoObservacion in v && |v[EmprendimientoObservacion]| >= MinObservation
  {
    SchemaFollowsCriteria();
    AcceptsAppend(GroupRules(InfraestructuraCriterios, InfraestructuraObservacion), GroupRules(EmprendimientoCriterios, EmprendimientoObservacion), v);
    GroupRulesAccept(InfraestructuraCriterios, InfraestructuraObservacion, v);
    GroupRulesAccept(EmprendimientoCriterios, EmprendimientoObservacion, v);
  }

  /** A rating is checked for presence only: `""`, "7" or any other string passes. */
  lemma RatingsCheckPresenceOnly(v: Values, k: string, s: string, t: string)
    requires k in Criterios
    ensures Parse(Schema, v[k := s]).Ok? <==> Parse(Schema, v[k := t]).Ok?
  {
    assert 15 <= |k| <= 16;
    forall i | 0 <= i < |Schema| && Schema[i].name == k ensures Schema[i].Required? {
    }
    PresenceOnly(Schema, v, k, s, t);
  }

  /** The blank record is rejected, on exactly the two shared justifications. */
  lemma BlankRejected()
    ensures Parse(Schema, Blank).Err?
    ensures Errors(Schema, Blank) == {InfraestructuraObservacion, EmprendimientoObservacion}
  {
    SchemaFields();
    forall n | n in Names(Schema) ensures n in Blank && Blank[n] == "" {
      var i :| 0 <= i < |Schema| && Schema[i].name == n;
    }
    BlankErrors(Schema, Blank);
  }
}
