/** The "Predict" handler of app.py up to the vector handed to the scaler: derive
    the features (lines 44-60), assemble them in schema order (line 63), and let
    any exception end the request without a prediction (lines 80-81). */
module Predict {
  import opened Outcome
  import opened Derivation
  import opened Assembly

  /** Reading a finished feature map through a schema: it succeeds exactly when
      every schema name is one of the thirteen feature names, and then yields
      the reference value of each name, position by position. */
  lemma AssembleFeatureMap(r: Raw, m: map<string, real>, schema: seq<string>)
    requires Derives(r, m)
    ensures Assemble(m, schema).Ok? <==> forall i :: 0 <= i < |schema| ==> schema[i] in FEATURE_NAMES
    ensures Assemble(m, schema).Ok? ==>
              forall i :: 0 <= i < |schema| ==> Assemble(m, schema).value[i] == FeatureValue(r, schema[i])
    ensures Assemble(m, schema).Err? ==>
              exists k :: 0 <= k < |schema| && schema[k] !in FEATURE_NAMES
                          && Assemble(m, schema).error == MissingFeature(schema[k])
  {
  }

  /** The try-block of the handler as far as the model input: the derived feature
      map read out in schema order, or the error that ends the request. Over the
      sidebar's domains only a schema name outside the thirteen features can
      stop it. */
  method PrepareInput(r: Raw, schema: seq<string>) returns (res: Result<seq<real>>)
    ensures res.Ok? <==>
              DivisorsNonZero(r) && forall i :: 0 <= i < |schema| ==> schema[i] in FEATURE_NAMES
    ensures InDomain(r) ==>
              (res.Ok? <==> forall i :: 0 <= i < |schema| ==> schema[i] in FEATURE_NAMES)
    ensures res.Ok? ==> |res.value| == |schema|
    ensures res.Ok? ==> forall i :: 0 <= i < |schema| ==> res.value[i] == FeatureValue(r, schema[i])
    ensures !DivisorsNonZero(r) ==> res.Err? && res.error.ZeroDivision?
    ensures DivisorsNonZero(r) && res.Err? ==>
              exists k :: 0 <= k < |schema| && schema[k] !in FEATURE_NAMES
                          && res.error == MissingFeature(schema[k])
  {
    if InDomain(r) {
      DomainExcludesZeroDivision(r);
    }
    var derived := Derive(r);
    if derived.Err? {
      return Err(derived.error);
    }
    var inputData := derived.value;
    AssembleFeatureMap(r, inputData, schema);
    res := Assemble(inputData, schema);
  }
}
