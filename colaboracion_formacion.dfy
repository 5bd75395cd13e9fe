/**
  Step 4 of the survey, "Colaboración y Formación": fourteen criteria in two
  groups (collaboration with industry and other actors, training of human
  resources), each rated, with one justification of at least ten characters
  shared by each group. The schema has no cross-field rule.
*/
module ColaboracionFormacion {
  import opened Wrappers
  import opened StepSchema

  /** The collaboration criteria, in display order. */
  const ColaboracionCriterios: seq<string> := ["colaboracion1", "colaboracion2", "colaboracion3", "colaboracion4", "colaboracion5", "colaboracion6", "colaboracion7"]

  /** The training criteria, in display order. */
  const FormacionCriterios: seq<string> := ["formacion1", "formacion2", "formacion3", "formacion4", "formacion5", "formacion6", "formacion7"]

  const Criterios: seq<string> := ColaboracionCriterios + FormacionCriterios

  /** The justification shared by the first group. */
  const ColaboracionObservacion := "colaboracionObservacion"

  /** The justification shared by the second group. */
  const FormacionObservacion := "formacionObservacion"

  /** The step's zod object, field by field as declared. */
  const Schema: seq<Rule> := [
    Required("colaboracion1"),
    Required("colaboracion2"),
    Required("colaboracion3"),
    Required("colaboracion4"),
    Required("colaboracion5"),
    Required("colaboracion6"),
    Required("colaboracion7"),
    MinLength("colaboracionObservacion", 10),
    Required("formacion1"),
    Required("formacion2"),
    Required("formacion3"),
    Required("formacion4"),
    Required("formacion5"),
    Required("formacion6"),
    Required("formacion7"),
    MinLength("formacionObservacion", 10)
  ]

  /** The values the form starts from when the wizard has nothing for this step. */
  const Blank: Values := map[
    "colaboracion1" := "",
    "colaboracion2" := "",
    "colaboracion3" := "",
    "colaboracion4" := "",
    "colaboracion5" := "",
    "colaboracion6" := "",
    "colaboracion7" := "",
    "colaboracionObservacion" := "",
    "formacion1" := "",
    "formacion2" := "",
    "formacion3" := "",
    "formacion4" := "",
    "formacion5" := "",
    "formacion6" := "",
    "formacion7" := "",
    "formacionObservacion" := ""
  ]

  /** `defaultValues || {…}`: the wizard's saved values, or the blank record (a saved record is never falsy, so `||` acts as `??`). */
  function InitialValues(prefill: Option<Values>): (v: Values)
    ensures prefill.Some? ==> v == prefill.value
    ensures prefill.None? ==> v == Blank
  {
    prefill.GetOr(Blank)
  }

  /**
    The declared schema is the two groups of the criterion lists: each
    group's ratings in display order, then the group's one justification.
  */
  lemma SchemaFollowsCriteria()
    ensures Schema == GroupRules(ColaboracionCriterios, ColaboracionObservacion) + GroupRules(FormacionCriterios, FormacionObservacion)
  {
    ColaboracionGroup();
    FormacionGroup();
    assert Schema == Schema[..8] + Schema[8..];
  }

  /** The first 8 fields of the schema are the first group. */
  lemma ColaboracionGroup()
    ensures Schema[..8] == GroupRules(ColaboracionCriterios, ColaboracionObservacion)
  {
  }

  /** The last 8 fields of the schema are the second group. */
  lemma FormacionGroup()
    ensures Schema[8..] == GroupRules(FormacionCriterios, FormacionObservacion)
  {
  }

  /**
    The schema's fields are the 14 criterion keys and the two shared
    justifications, and only the justifications are length-checked.
  */
  lemma SchemaFields()
    ensures Names(Schema) == (set k | k in Criterios) + {ColaboracionObservacion, FormacionObservacion}
    ensures LengthCheckedNames(Schema) == {ColaboracionObservacion, FormacionObservacion}
  {
    var first := GroupRules(ColaboracionCriterios, ColaboracionObservacion);
    var second := GroupRules(FormacionCriterios, FormacionObservacion);
    SchemaFollowsCriteria();
    NamesAppend(first, second);
    LengthCheckedAppend(first, second);
    GroupRulesNames(ColaboracionCriterios, ColaboracionObservacion);
    GroupRulesNames(FormacionCriterios, FormacionObservacion);
  }

  /**
    A record is accepted exactly when all 14 ratings are present and each
    group's shared justification is present with at least ten characters.
  */
  lemma AcceptedIff(v: Values)
    ensures Parse(Schema, v).Ok? <==>
      && (forall k :: k in Criterios ==> k in v)
      && ColaboracionObservacion in v && |v[ColaboracionObservacion]| >= MinObservation
      && FormacionObservacion in v && |v[FormacionObservacion]| >= MinObservation
  {
    SchemaFollowsCriteria();
    AcceptsAppend(GroupRules(ColaboracionCriterios, ColaboracionObservacion), GroupRules(FormacionCriterios, FormacionObservacion), v);
    GroupRulesAccept(ColaboracionCriterios, ColaboracionObservacion, v);
    GroupRulesAccept(FormacionCriterios, FormacionObservacion, v);
  }

  /** A rating is checked for presence only: `""`, "7" or any other string passes. */
  lemma RatingsCheckPresenceOnly(v: Values, k: string, s: string, t: string)
    requires k in Criterios
    ensures Parse(Schema, v[k := s]).Ok? <==> Parse(Schema, v[k := t]).Ok?
  {
    assert 10 <= |k| <= 13;
    forall i | 0 <= i < |Schema| && Schema[i].name == k ensures Schema[i].Required? {
    }
    PresenceOnly(Schema, v, k, s, t);
  }

  /** The blank record is rejected, on exactly the two shared justifications. */
  lemma BlankRejected()
    ensures Parse(Schema, Blank).Err?
    ensures Errors(Schema, Blank) == {ColaboracionObservacion, FormacionObservacion}
  {
    SchemaFields();
    forall n | n in Names(Schema) ensures n in Blank && Blank[n] == "" {
      var i :| 0 <= i < |Schema| && Schema[i].name == n;
    }
    BlankErrors(Schema, Blank);
  }
}
