/**
  Step 2 of the survey, "Áreas de Conocimiento e Investigación": nine
  criteria in two groups, each rated and each with its own justification of
  at least ten characters. The schema has no cross-field rule.
*/
module AreasConocimiento {
  import opened Wrappers
  import opened StepSchema

  /** The knowledge-area criteria, in display order. */
  const AreasConocimientoCriterios: seq<string> :=
    ["areasConocimiento1", "areasConocimiento2", "areasConocimiento3", "areasConocimiento4"]

  /** The research and development criteria, in display order. */
  const InvestigacionCriterios: seq<string> :=
    ["investigacion1", "investigacion2", "investigacion3", "investigacion4", "investigacion5"]

  const Criterios: seq<string> := AreasConocimientoCriterios + InvestigacionCriterios

  /** The step's zod object, field by field as declared. */
  const Schema: seq<Rule> := [
    Required("areasConocimiento1"), MinLength("areasConocimiento1Observacion", 10),
    Required("areasConocimiento2"), MinLength("areasConocimiento2Observacion", 10),
    Required("areasConocimiento3"), MinLength("areasConocimiento3Observacion", 10),
    Required("areasConocimiento4"), MinLength("areasConocimiento4Observacion", 10),
    Required("investigacion1"), MinLength("investigacion1Observacion", 10),
    Required("investigacion2"), MinLength("investigacion2Observacion", 10),
    Required("investigacion3"), MinLength("investigacion3Observacion", 10),
    Required("investigacion4"), MinLength("investigacion4Observacion", 10),
    Required("investigacion5"), MinLength("investigacion5Observacion", 10)
  ]

  /** The values the form starts from when the wizard has nothing for this step. */
  const Blank: Values := map[
    "areasConocimiento1" := "", "areasConocimiento1Observacion" := "",
    "areasConocimiento2" := "", "areasConocimiento2Observacion" := "",
    "areasConocimiento3" := "", "areasConocimiento3Observacion" := "",
    "areasConocimiento4" := "", "areasConocimiento4Observacion" := "",
    "investigacion1" := "", "investigacion1Observacion" := "",
    "investigacion2" := "", "investigacion2Observacion" := "",
    "investigacion3" := "", "investigacion3Observacion" := "",
    "investigacion4" := "", "investigacion4Observacion" := "",
    "investigacion5" := "", "investigacion5Observacion" := ""
  ]

  /** The justification field of every criterion: its key followed by "Observacion". */
  function ObservationFields(): set<string> {
    set k | k in Criterios :: ObservationName(k)
  }

  /** `defaultValues ?? {…}`: the wizard's saved values, or the blank record. */
  function InitialValues(prefill: Option<Values>): (v: Values)
    ensures prefill.Some? ==> v == prefill.value
    ensures prefill.None? ==> v == Blank
  {
    prefill.GetOr(Blank)
  }

  /**
    The declared schema is the one the criterion lists describe: each
    criterion's rating followed by the field named `key + "Observacion"`.
  */
  lemma SchemaFollowsCriteria()
    ensures Schema == CriterionRules(Criterios)
  {
    assert PairedWith(Schema, Criterios) by {
      forall i | 0 <= i < |Criterios| ensures PairedAt(Schema, Criterios, i) {
        if i == 0 { AreasConocimiento1Paired(); }
        else if i == 1 { AreasConocimiento2Paired(); }
        else if i == 2 { AreasConocimiento3Paired(); }
        else if i == 3 { AreasConocimiento4Paired(); }
        else if i == 4 { Investigacion1Paired(); }
        else if i == 5 { Investigacion2Paired(); }
        else if i == 6 { Investigacion3Paired(); }
        else if i == 7 { Investigacion4Paired(); }
        else if i == 8 { Investigacion5Paired(); }
      }
    }
    PairedIsCriterionRules(Schema, Criterios);
  }

  /** Criterion `areasConocimiento1` rates at position 0 and is justified in `areasConocimiento1Observacion` at position 1. */
  lemma AreasConocimiento1Paired()
    ensures PairedAt(Schema, Criterios, 0)
  {
    assert Criterios[0] == "areasConocimiento1";
    assert ObservationName("areasConocimiento1") == "areasConocimiento1Observacion";
  }

  /** Criterion `areasConocimiento2` rates at position 2 and is justified in `areasConocimiento2Observacion` at position 3. */
  lemma AreasConocimiento2Paired()
    ensures PairedAt(Schema, Criterios, 1)
  {
    assert Criterios[1] == "areasConocimiento2";
    assert ObservationName("areasConocimiento2") == "areasConocimiento2Observacion";
  }

  /** Criterion `areasConocimiento3` rates at position 4 and is justified in `areasConocimiento3Observacion` at position 5. */
  lemma AreasConocimiento3Paired()
    ensures PairedAt(Schema, Criterios, 2)
  {
    assert Criterios[2] == "areasConocimiento3";
    assert ObservationName("areasConocimiento3") == "areasConocimiento3Observacion";
  }

  /** Criterion `areasConocimiento4` rates at position 6 and is justified in `areasConocimiento4Observacion` at position 7. */
  lemma AreasConocimiento4Paired()
    ensures PairedAt(Schema, Criterios, 3)
  {
    assert Criterios[3] == "areasConocimiento4";
    assert ObservationName("areasConocimiento4") == "areasConocimiento4Observacion";
  }

  /** Criterion `investigacion1` rates at position 8 and is justified in `investigacion1Observacion` at position 9. */
  lemma Investigacion1Paired()
    ensures PairedAt(Schema, Criterios, 4)
  {
    assert Criterios[4] == "investigacion1";
    assert ObservationName("investigacion1") == "investigacion1Observacion";
  }

  /** Criterion `investigacion2` rates at position 10 and is justified in `investigacion2Observacion` at position 11. */
  lemma Investigacion2Paired()
    ensures PairedAt(Schema, Criterios, 5)
  {
    assert Criterios[5] == "investigacion2";
    assert ObservationName("investigacion2") == "investigacion2Observacion";
  }

  /** Criterion `investigacion3` rates at position 12 and is justified in `investigacion3Observacion` at position 13. */
  lemma Investigacion3Paired()
    ensures PairedAt(Schema, Criterios, 6)
  {
    assert Criterios[6] == "investigacion3";
    assert ObservationName("investigacion3") == "investigacion3Observacion";
  }

  /** Criterion `investigacion4` rates at position 14 and is justified in `investigacion4Observacion` at position 15. */
  lemma Investigacion4Paired()
    ensures PairedAt(Schema, Criterios, 7)
  {
    assert Criterios[7] == "investigacion4";
    assert ObservationName("investigacion4") == "investigacion4Observacion";
  }

  /** Criterion `investigacion5` rates at position 16 and is justified in `investigacion5Observacion` at position 17. */
  lemma Investigacion5Paired()
    ensures PairedAt(Schema, Criterios, 8)
  {
    assert Criterios[8] == "investigacion5";
    assert ObservationName("investigacion5") == "investigacion5Observacion";
  }

  /**
    The schema's fields are the nine criterion keys and their justification
    fields, and the justification fields are exactly the length-checked ones.
  */
  lemma SchemaFields()
    ensures Names(Schema) == (set k | k in Criterios) + ObservationFields()
    ensures LengthCheckedNames(Schema) == ObservationFields()
  {
    SchemaFollowsCriteria();
    CriterionRulesNames(Criterios);
    CriterionRulesLengthChecked(Criterios);
  }

  /**
    A record is accepted exactly when all nine ratings are present and each
    criterion's own justification is present with at least ten characters.
  */
  lemma AcceptedIff(v: Values)
    ensures Parse(Schema, v).Ok? <==>
      forall k :: k in Criterios ==>
        k in v && ObservationName(k) in v && |v[ObservationName(k)]| >= MinObservation
  {
    SchemaFollowsCriteria();
    CriterionRulesAccept(Criterios, v);
  }

  /** A rating is checked for presence only: `""`, "7" or any other string passes. */
  lemma RatingsCheckPresenceOnly(v: Values, k: string, s: string, t: string)
    requires k in Criterios
    ensures Parse(Schema, v[k := s]).Ok? <==> Parse(Schema, v[k := t]).Ok?
  {
    SchemaFollowsCriteria();
    NoKeyIsObservation(Criterios, 14, 18);
    CriterionRatingPresenceOnly(Criterios, v, k, s, t);
  }

  /** The blank record is rejected, on exactly the nine justification fields. */
  lemma BlankRejected()
    ensures Parse(Schema, Blank).Err?
    ensures Errors(Schema, Blank) == ObservationFields()
  {
    SchemaFields();
    BlankCoversSchema();
    BlankErrors(Schema, Blank);
    assert "areasConocimiento1Observacion" in Errors(Schema, Blank) by {
      assert ObservationName("areasConocimiento1") == "areasConocimiento1Observacion";
      assert "areasConocimiento1" in Criterios;
    }
  }

  /** The blank record holds `""` in every field of the schema. */
  lemma BlankCoversSchema()
    ensures forall n :: n in Names(Schema) ==> n in Blank && Blank[n] == ""
  {
    forall n | n in Names(Schema) ensures n in Blank && Blank[n] == "" {
      var i :| 0 <= i < |Schema| && Schema[i].name == n;
    }
  }
}
