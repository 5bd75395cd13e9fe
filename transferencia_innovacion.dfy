/**
  Step 3 of the survey, "Transferencia de Tecnología y Participación en
  Innovación": six criteria in two groups (relation with the environment,
  knowledge transfer and innovation), each rated and each with its own
  justification of at least ten characters. The schema has no cross-field
  rule.
*/
module TransferenciaInnovacion {
  import opened Wrappers
  import opened StepSchema

  /** The relation-with-the-environment criteria, in display order. */
  const EntornoCriterios: seq<string> := ["entorno1", "entorno2", "entorno3"]

  /** The transfer and innovation criteria, in display order. */
  const TransferenciaCriterios: seq<string> := ["transferencia1", "transferencia2", "transferencia3"]

  const Criterios: seq<string> := EntornoCriterios + TransferenciaCriterios

  /** The step's zod object, field by field as declared. */
  const Schema: seq<Rule> := [
    Required("entorno1"), MinLength("entorno1Observacion", 10),
    Required("entorno2"), MinLength("entorno2Observacion", 10),
    Required("entorno3"), MinLength("entorno3Observacion", 10),
    Required("transferencia1"), MinLength("transferencia1Observacion", 10),
    Required("transferencia2"), MinLength("transferencia2Observacion", 10),
    Required("transferencia3"), MinLength("transferencia3Observacion", 10)
  ]

  /** The values the form starts from when the wizard has nothing for this step. */
  const Blank: Values := map[
    "entorno1" := "", "entorno1Observacion" := "",
    "entorno2" := "", "entorno2Observacion" := "",
    "entorno3" := "", "entorno3Observacion" := "",
    "transferencia1" := "", "transferencia1Observacion" := "",
    "transferencia2" := "", "transferencia2Observacion" := "",
    "transferencia3" := "", "transferencia3Observacion" := ""
  ]

  /** The justification field of every criterion: its key followed by "Observacion". */
  function ObservationFields(): set<string> {
    set k | k in Criterios :: ObservationName(k)
  }

  /** `defaultValues ?? {…}`: the wizard's saved values, or the blank record. */
  function InitialValues(prefill: Option<Values>): (v: Values)
    ensures prefill.Some? ==> v == prefill.value
    ensures prefill.None? ==> v == Blank
  {
    prefill.GetOr(Blank)
  }

  /**
    The declared schema is the one the criterion lists describe: each
    criterion's rating followed by the field named `key + "Observacion"`.
  */
  lemma SchemaFollowsCriteria()
    ensures Schema == CriterionRules(Criterios)
  {
    assert PairedWith(Schema, Criterios) by {
      forall i | 0 <= i < |Criterios| ensures PairedAt(Schema, Criterios, i) {
        if i == 0 { Entorno1Paired(); }
        else if i == 1 { Entorno2Paired(); }
        else if i == 2 { Entorno3Paired(); }
        else if i == 3 { Transferencia1Paired(); }
        else if i == 4 { Transferencia2Paired(); }
        else if i == 5 { Transferencia3Paired(); }
      }
    }
    PairedIsCriterionRules(Schema, Criterios);
  }

  /** Criterion `entorno1` rates at position 0 and is justified in `entorno1Observacion` at position 1. */
  lemma Entorno1Paired()
    ensures PairedAt(Schema, Criterios, 0)
  {
    assert Criterios[0] == "entorno1";
    assert ObservationName("entorno1") == "entorno1Observacion";
  }

  /** Criterion `entorno2` rates at position 2 and is justified in `entorno2Observacion` at position 3. */
  lemma Entorno2Paired()
    ensures PairedAt(Schema, Criterios, 1)
  {
    assert Criterios[1] == "entorno2";
    assert ObservationName("entorno2") == "entorno2Observacion";
  }

  /** Criterion `entorno3` rates at position 4 and is justified in `entorno3Observacion` at position 5. */
  lemma Entorno3Paired()
    ensures PairedAt(Schema, Criterios, 2)
  {
    assert Criterios[2] == "entorno3";
    assert ObservationName("entorno3") == "entorno3Observacion";
  }

  /** Criterion `transferencia1` rates at position 6 and is justified in `transferencia1Observacion` at position 7. */
  lemma Transferencia1Paired()
    ensures PairedAt(Schema, Criterios, 3)
  {
    assert Criterios[3] == "transferencia1";
    assert ObservationName("transferencia1") == "transferencia1Observacion";
  }

  /** Criterion `transferencia2` rates at position 8 and is justified in `transferencia2Observacion` at position 9. */
  lemma Transferencia2Paired()
    ensures PairedAt(Schema, Criterios, 4)
  {
    assert Criterios[4] == "transferencia2";
    assert ObservationName("transferencia2") == "transferencia2Observacion";
  }

  /** Criterion `transferencia3` rates at position 10 and is justified in `transferencia3Observacion` at position 11. */
  lemma Transferencia3Paired()
    ensures PairedAt(Schema, Criterios, 5)
  {
    assert Criterios[5] == "transferencia3";
    assert ObservationName("transferencia3") == "transferencia3Observacion";
  }

  /**
    The schema's fields are the six criterion keys and their justification
    fields, and the justification fields are exactly the length-checked ones.
  */
  lemma SchemaFields()
    ensures Names(Schema) == (set k | k in Criterios) + ObservationFields()
    ensures LengthCheckedNames(Schema) == ObservationFields()
  {
    SchemaFollowsCriteria();
    CriterionRulesNames(Criterios);
    CriterionRulesLengthChecked(Criterios);
  }

  /**
    A record is accepted exactly when all six ratings are present and each
    criterion's own justification is present with at least ten characters.
  */
  lemma AcceptedIff(v: Values)
    ensures Parse(Schema, v).Ok? <==>
      forall k :: k in Criterios ==>
        k in v && ObservationName(k) in v && |v[ObservationName(k)]| >= MinObservation
  {
    SchemaFollowsCriteria();
    CriterionRulesAccept(Criterios, v);
  }

  /** A rating is checked for presence only: `""`, "7" or any other string passes. */
  lemma RatingsCheckPresenceOnly(v: Values, k: string, s: string, t: string)
    requires k in Criterios
    ensures Parse(Schema, v[k := s]).Ok? <==> Parse(Schema, v[k := t]).Ok?
  {
    SchemaFollowsCriteria();
    NoKeyIsObservation(Criterios, 8, 14);
    CriterionRatingPresenceOnly(Criterios, v, k, s, t);
  }

  /** The blank record is rejected, on exactly the six justification fields. */
  lemma BlankRejected()
    ensures Parse(Schema, Blank).Err?
    ensures Errors(Schema, Blank) == ObservationFields()
  {
    SchemaFields();
    BlankCoversSchema();
    BlankErrors(Schema, Blank);
    assert "entorno1Observacion" in Errors(Schema, Blank) by {
      assert ObservationName("entorno1") == "entorno1Observacion";
      assert "entorno1" in Criterios;
    }
  }

  /** The blank record holds `""` in every field of the schema. */
  lemma BlankCoversSchema()
    ensures forall n :: n in Names(Schema) ==> n in Blank && Blank[n] == ""
  {
    forall n | n in Names(Schema) ensures n in Blank && Blank[n] == "" {
      var i :| 0 <= i < |Schema| && Schema[i].name == n;
    }
  }
}
