/**
  The field checks shared by the four rating steps of the survey.

  A rating step's values are a flat record of strings, held here as a map from
  field name to value: a key that is absent is a field the form left
  `undefined`. Each step's zod object uses two kinds of check only:
  `z.string({required_error})`, which rejects a missing value and nothing else,
  and `z.string().min(n)`, which rejects a missing value or a string shorter
  than `n`. A schema is the sequence of those checks, one per field.
*/
module StepSchema {
  import opened Wrappers

  type Values = map<string, string>

  datatype Rule =
    | Required(name: string)             // z.string({ required_error }): present, any string
    | MinLength(name: string, min: nat)  // z.string().min(min): present and at least `min` long

  /** Every justification field is named after its criterion with this suffix. */
  const ObservationSuffix := "Observacion"

  /** The minimum length of every justification ("observación") field. */
  const MinObservation := 10

  function ObservationName(key: string): string {
    key + ObservationSuffix
  }

  predicate Holds(rule: Rule, v: Values) {
    match rule
    case Required(n) => n in v
    case MinLength(n, m) => n in v && |v[n]| >= m
  }

  /** The schema accepts the values when every one of its checks holds. */
  predicate Accepts(rules: seq<Rule>, v: Values) {
    forall i :: 0 <= i < |rules| ==> Holds(rules[i], v)
  }

  function Names(rules: seq<Rule>): set<string> {
    set i | 0 <= i < |rules| :: rules[i].name
  }

  /** The fields a parse reports in error: zod checks every key and collects every failure. */
  function Errors(rules: seq<Rule>, v: Values): (errs: set<string>)
    ensures errs <= Names(rules)
    ensures errs == {} <==> Accepts(rules, v)
    ensures forall i :: 0 <= i < |rules| && !Holds(rules[i], v) ==> rules[i].name in errs
    ensures forall n :: n in errs ==> exists i :: 0 <= i < |rules| && rules[i].name == n && !Holds(rules[i], v)
  {
    var errs := set i | 0 <= i < |rules| && !Holds(rules[i], v) :: rules[i].name;
    assert !Accepts(rules, v) ==> errs != {} by {
      if !Accepts(rules, v) {
        var i :| 0 <= i < |rules| && !Holds(rules[i], v);
        assert rules[i].name in errs;
      }
    }
    errs
  }

  /**
    What the form library hands to the step's submit handler. An object schema
    strips keys it does not declare, so the accepted output is the input
    restricted to the schema's fields; otherwise nothing is forwarded and the
    fields in error are reported.
  */
  function Parse(rules: seq<Rule>, v: Values): (r: Result<Values, set<string>>)
    ensures r.Ok? <==> Accepts(rules, v)
    ensures r.Ok? ==> r.value.Keys == v.Keys * Names(rules)
    ensures r.Ok? ==> forall n :: n in r.value ==> r.value[n] == v[n]
    ensures r.Err? ==> r.error != {} && r.error == Errors(rules, v)
  {
    if Errors(rules, v) == {} then
      Ok(map n | n in v && n in Names(rules) :: v[n])
    else
      Err(Errors(rules, v))
  }

  // ---------------------------------------------------------------------------
  // Schemas built from criterion lists

  /** One rating plus its own justification per criterion, in list order. */
  function CriterionRules(keys: seq<string>): (rules: seq<Rule>)
    ensures |rules| == 2 * |keys|
  {
    if keys == [] then []
    else [Required(keys[0]), MinLength(ObservationName(keys[0]), MinObservation)] + CriterionRules(keys[1..])
  }

  /** Criterion `i` contributes the rule pair at positions `2i` and `2i + 1`. */
  lemma {:induction false} CriterionRulesAt(keys: seq<string>, i: nat)
    requires i < |keys|
    ensures CriterionRules(keys)[2 * i] == Required(keys[i])
    ensures CriterionRules(keys)[2 * i + 1] == MinLength(ObservationName(keys[i]), MinObservation)
  {
    if i > 0 {
      CriterionRulesAt(keys[1..], i - 1);
    }
  }

  /**
    The rules pair up with the criterion list: position `2i` rates criterion
    `i` and position `2i + 1` is its justification field.
  */
  predicate PairedWith(rules: seq<Rule>, keys: seq<string>) {
    && |rules| == 2 * |keys|
    && forall i :: 0 <= i < |keys| ==> PairedAt(rules, keys, i)
  }

  /** Position `2i` rates criterion `i` and position `2i + 1` is its justification field. */
  predicate PairedAt(rules: seq<Rule>, keys: seq<string>, i: nat) {
    && i < |keys| && 2 * i + 1 < |rules|
    && rules[2 * i] == Required(keys[i])
    && rules[2 * i + 1] == MinLength(ObservationName(keys[i]), MinObservation)
  }

  /** Rules paired with a criterion list are the per-criterion schema of that list. */
  lemma PairedIsCriterionRules(rules: seq<Rule>, keys: seq<string>)
    requires PairedWith(rules, keys)
    ensures rules == CriterionRules(keys)
  {
    forall j | 0 <= j < |rules| ensures rules[j] == CriterionRules(keys)[j] {
      var i := j / 2;
      CriterionRulesAt(keys, i);
      assert PairedAt(rules, keys, i);
      assert j == 2 * i || j == 2 * i + 1;
    }
  }

  /** One rating per criterion, then one justification shared by the whole group. */
  function GroupRules(keys: seq<string>, observation: string): (rules: seq<Rule>)
    ensures |rules| == |keys| + 1
  {
    RatingRules(keys) + [MinLength(observation, MinObservation)]
  }

  function RatingRules(keys: seq<string>): (rules: seq<Rule>)
    ensures |rules| == |keys|
    ensures forall i :: 0 <= i < |keys| ==> rules[i] == Required(keys[i])
  {
    seq(|keys|, i requires 0 <= i < |keys| => Required(keys[i]))
  }

  /** The names of the checks that reject a present empty string. */
  function LengthCheckedNames(rules: seq<Rule>): set<string> {
    set i | 0 <= i < |rules| && rules[i].MinLength? && rules[i].min > 0 :: rules[i].name
  }

  // ---------------------------------------------------------------------------
  // Properties

  lemma AcceptsAppend(a: seq<Rule>, b: seq<Rule>, v: Values)
    ensures Accepts(a + b, v) <==> Accepts(a, v) && Accepts(b, v)
  {
    if Accepts(a, v) && Accepts(b, v) {
      forall i | 0 <= i < |a + b| ensures Holds((a + b)[i], v) {
        if i >= |a| { assert (a + b)[i] == b[i - |a|]; }
      }
    }
    if Accepts(a + b, v) {
      forall i | 0 <= i < |a| ensures Holds(a[i], v) {
        assert (a + b)[i] == a[i];
      }
      forall i | 0 <= i < |b| ensures Holds(b[i], v) {
        assert (a + b)[|a| + i] == b[i];
      }
    }
  }

  lemma NamesAppend(a: seq<Rule>, b: seq<Rule>)
    ensures Names(a + b) == Names(a) + Names(b)
  {
    forall n | n in Names(a + b) ensures n in Names(a) + Names(b) {
      var i :| 0 <= i < |a + b| && (a + b)[i].name == n;
      if i >= |a| { assert b[i - |a|] == (a + b)[i]; }
    }
    forall n | n in Names(a) ensures n in Names(a + b) {
      var i :| 0 <= i < |a| && a[i].name == n;
      assert (a + b)[i] == a[i];
    }
    forall n | n in Names(b) ensures n in Names(a + b) {
      var i :| 0 <= i < |b| && b[i].name == n;
      assert (a + b)[|a| + i] == b[i];
    }
  }

  lemma LengthCheckedAppend(a: seq<Rule>, b: seq<Rule>)
    ensures LengthCheckedNames(a + b) == LengthCheckedNames(a) + LengthCheckedNames(b)
  {
    forall n | n in LengthCheckedNames(a + b) ensures n in LengthCheckedNames(a) + LengthCheckedNames(b) {
      var i :| 0 <= i < |a + b| && (a + b)[i].MinLength? && (a + b)[i].min > 0 && (a + b)[i].name == n;
      if i >= |a| { assert b[i - |a|] == (a + b)[i]; }
    }
    forall n | n in LengthCheckedNames(a) ensures n in LengthCheckedNames(a + b) {
      var i :| 0 <= i < |a| && a[i].MinLength? && a[i].min > 0 && a[i].name == n;
      assert (a + b)[i] == a[i];
    }
    forall n | n in LengthCheckedNames(b) ensures n in LengthCheckedNames(a + b) {
      var i :| 0 <= i < |b| && b[i].MinLength? && b[i].min > 0 && b[i].name == n;
      assert (a + b)[|a| + i] == b[i];
    }
  }

  /** A per-criterion schema accepts exactly when every criterion has a rating and a long enough justification. */
  lemma {:induction false} CriterionRulesAccept(keys: seq<string>, v: Values)
    ensures Accepts(CriterionRules(keys), v) <==>
      forall k :: k in keys ==>
        k in v && ObservationName(k) in v && |v[ObservationName(k)]| >= MinObservation
  {
    if keys != [] {
      var head := [Required(keys[0]), MinLength(ObservationName(keys[0]), MinObservation)];
      AcceptsAppend(head, CriterionRules(keys[1..]), v);
      CriterionRulesAccept(keys[1..], v);
      assert Accepts(head, v) <==>
        keys[0] in v && ObservationName(keys[0]) in v && |v[ObservationName(keys[0])]| >= MinObservation
      by {
        assert head[0] == Required(keys[0]);
        assert head[1] == MinLength(ObservationName(keys[0]), MinObservation);
      }
      assert forall k :: k in keys <==> k == keys[0] || k in keys[1..] by {
        assert keys == [keys[0]] + keys[1..];
      }
    }
  }

  /** The fields of a per-criterion schema: each criterion key and its justification field. */
  lemma {:induction false} CriterionRulesNames(keys: seq<string>)
    ensures Names(CriterionRules(keys)) == (set k | k in keys) + (set k | k in keys :: ObservationName(k))
  {
    if keys != [] {
      var head := [Required(keys[0]), MinLength(ObservationName(keys[0]), MinObservation)];
      NamesAppend(head, CriterionRules(keys[1..]));
      CriterionRulesNames(keys[1..]);
      assert Names(head) == {keys[0], ObservationName(keys[0])} by {
        assert head[0].name == keys[0] && head[1].name == ObservationName(keys[0]);
      }
      assert forall k :: k in keys <==> k == keys[0] || k in keys[1..] by {
        assert keys == [keys[0]] + keys[1..];
      }
    }
  }

  /** In a per-criterion schema the length-checked fields are exactly the justification fields. */
  lemma {:induction false} CriterionRulesLengthChecked(keys: seq<string>)
    ensures LengthCheckedNames(CriterionRules(keys)) == set k | k in keys :: ObservationName(k)
  {
    if keys != [] {
      var head := [Required(keys[0]), MinLength(ObservationName(keys[0]), MinObservation)];
      LengthCheckedAppend(head, CriterionRules(keys[1..]));
      CriterionRulesLengthChecked(keys[1..]);
      assert LengthCheckedNames(head) == {ObservationName(keys[0])} by {
        assert head[0].Required? && head[1].MinLength? && head[1].min > 0;
      }
      assert forall k :: k in keys <==> k == keys[0] || k in keys[1..] by {
        assert keys == [keys[0]] + keys[1..];
      }
    }
  }

  /** A group schema accepts exactly when every rating of the group is present and the shared justification is long enough. */
  lemma GroupRulesAccept(keys: seq<string>, observation: string, v: Values)
    ensures Accepts(GroupRules(keys, observation), v) <==>
      (forall k :: k in keys ==> k in v) && observation in v && |v[observation]| >= MinObservation
  {
    var last := [MinLength(observation, MinObservation)];
    AcceptsAppend(RatingRules(keys), last, v);
    assert Accepts(RatingRules(keys), v) <==> forall k :: k in keys ==> k in v by {
      if Accepts(RatingRules(keys), v) {
        forall k | k in keys ensures k in v {
          var i :| 0 <= i < |keys| && keys[i] == k;
          assert Holds(RatingRules(keys)[i], v);
        }
      }
    }
    assert Accepts(last, v) <==> observation in v && |v[observation]| >= MinObservation by {
      assert last[0] == MinLength(observation, MinObservation);
    }
  }

  lemma GroupRulesNames(keys: seq<string>, observation: string)
    ensures Names(GroupRules(keys, observation)) == (set k | k in keys) + {observation}
    ensures LengthCheckedNames(GroupRules(keys, observation)) == {observation}
  {
    var last := [MinLength(observation, MinObservation)];
    NamesAppend(RatingRules(keys), last);
    LengthCheckedAppend(RatingRules(keys), last);
    assert Names(RatingRules(keys)) == set k | k in keys by {
      forall k | k in keys ensures k in Names(RatingRules(keys)) {
        var i :| 0 <= i < |keys| && keys[i] == k;
        assert RatingRules(keys)[i].name == k;
      }
    }
    assert LengthCheckedNames(RatingRules(keys)) == {};
    assert Names(last) == {observation} by { assert last[0].name == observation; }
    assert LengthCheckedNames(last) == {observation} by { assert last[0].min > 0; }
  }

  /**
    A field checked only for presence accepts every string: whatever string it
    holds, the verdict is the same, `""` included.
  */
  lemma PresenceOnly(rules: seq<Rule>, v: Values, name: string, s: string, t: string)
    requires forall i :: 0 <= i < |rules| && rules[i].name == name ==> rules[i].Required?
    ensures Accepts(rules, v[name := s]) <==> Accepts(rules, v[name := t])
  {
    if Accepts(rules, v[name := s]) {
      forall i | 0 <= i < |rules| ensures Holds(rules[i], v[name := t]) {
        assert Holds(rules[i], v[name := s]);
      }
    }
    if Accepts(rules, v[name := t]) {
      forall i | 0 <= i < |rules| ensures Holds(rules[i], v[name := s]) {
        assert Holds(rules[i], v[name := t]);
      }
    }
  }

  /**
    In a per-criterion schema a rating is checked for presence only, as long
    as no criterion key is also some criterion's justification field.
  */
  lemma CriterionRatingPresenceOnly(keys: seq<string>, v: Values, k: string, s: string, t: string)
    requires k in keys
    requires forall k' :: k' in keys ==> ObservationName(k') != k
    ensures Accepts(CriterionRules(keys), v[k := s]) <==> Accepts(CriterionRules(keys), v[k := t])
  {
    var rules := CriterionRules(keys);
    forall i | 0 <= i < |rules| && rules[i].name == k ensures rules[i].Required? {
      var j := i / 2;
      CriterionRulesAt(keys, j);
      assert i == 2 * j || i == 2 * j + 1;
    }
    PresenceOnly(rules, v, k, s, t);
  }

  /**
    Keys whose lengths lie within fewer than `|ObservationSuffix|` of each
    other can never coincide with one another's justification field names.
  */
  lemma NoKeyIsObservation(keys: seq<string>, shortest: nat, longest: nat)
    requires forall k :: k in keys ==> shortest <= |k| <= longest
    requires longest < shortest + |ObservationSuffix|
    ensures forall k1, k2 :: k1 in keys && k2 in keys ==> ObservationName(k1) != k2
  {
  }

  /** A schema field that is missing is reported in error, so the step does not advance. */
  lemma MissingFieldReported(rules: seq<Rule>, v: Values, name: string)
    requires name in Names(rules) && name !in v
    ensures name in Errors(rules, v) && Parse(rules, v).Err?
  {
    var i :| 0 <= i < |rules| && rules[i].name == name;
    assert !Holds(rules[i], v);
  }

  /**
    Blank values (every field present as `""`, as the forms' default values
    are) fail exactly the length-checked fields.
  */
  lemma BlankErrors(rules: seq<Rule>, v: Values)
    requires forall n :: n in Names(rules) ==> n in v && v[n] == ""
    ensures Errors(rules, v) == LengthCheckedNames(rules)
  {
    forall n | n in LengthCheckedNames(rules) ensures n in Errors(rules, v) {
      var i :| 0 <= i < |rules| && rules[i].MinLength? && rules[i].min > 0 && rules[i].name == n;
      assert rules[i].name in Names(rules);
      assert !Holds(rules[i], v);
    }
    forall n | n in Errors(rules, v) ensures n in LengthCheckedNames(rules) {
      var i :| 0 <= i < |rules| && !Holds(rules[i], v) && rules[i].name == n;
      assert rules[i].name in Names(rules);
    }
  }

  /**
    Submitting forwards the validated values unchanged: values that hold only
    schema fields reach the submit handler exactly as entered.
  */
  lemma ForwardUnchanged(rules: seq<Rule>, v: Values)
    requires v.Keys <= Names(rules) && Accepts(rules, v)
    ensures Parse(rules, v) == Ok(v)
  {
    assert Parse(rules, v).Ok?;
    var out := Parse(rules, v).value;
    assert out.Keys == v.Keys;
    assert out == v;
  }
}
