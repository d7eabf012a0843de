/** Vector assembly (app.py:63): the feature map is read out in the order of the
    schema loaded from the feature-columns file, `[input_data[col] for col in
    feature_columns]`. A schema name that is not a key raises KeyError, which
    ends the request without a prediction. */
module Assembly {
  import opened Outcome

  /** Every name of `schema` is a key of `m`. */
  predicate Covers(m: map<string, real>, schema: seq<string>) {
    forall i :: 0 <= i < |schema| ==> schema[i] in m
  }

  /** Looks the schema names up one by one, left to right; the first name that
      is missing is the one the error reports. The map is a value, so the lookup
      cannot change it. */
  function Assemble(m: map<string, real>, schema: seq<string>): (r: Result<seq<real>>)
    ensures r.Ok? <==> Covers(m, schema)
    ensures r.Ok? ==> |r.value| == |schema|
    ensures r.Ok? ==> forall i :: 0 <= i < |schema| ==> r.value[i] == m[schema[i]]
    ensures r.Err? ==> exists k :: 0 <= k < |schema| && schema[k] !in m && Covers(m, schema[..k])
                                   && r.error == MissingFeature(schema[k])
  {
    if schema == [] then Ok([])
    else if schema[0] !in m then
      assert Covers(m, schema[..0]);
      Err(MissingFeature(schema[0]))
    else
      match Assemble(m, schema[1..])
      case Ok(rest) => Ok([m[schema[0]]] + rest)
      case Err(e) =>
        ghost var k :| 0 <= k < |schema| - 1 && schema[1..][k] !in m && Covers(m, schema[1..][..k])
                       && e == MissingFeature(schema[1..][k]);
        assert schema[..k + 1] == [schema[0]] + schema[1..][..k];
        assert Covers(m, schema[..k + 1]);
        Err(e)
  }

  /** A name that occurs twice in the schema contributes the same value at both
      positions of the vector. */
  lemma AssembleRepeatedName(m: map<string, real>, schema: seq<string>, i: nat, j: nat)
    requires Assemble(m, schema).Ok?
    requires i < |schema| && j < |schema| && schema[i] == schema[j]
    ensures Assemble(m, schema).value[i] == Assemble(m, schema).value[j]
  {
  }
}
