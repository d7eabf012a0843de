# Manufacturing output predictor: feature engineering

A model of the feature-engineering core of a one-page Streamlit app that
predicts a moulding machine's output in parts per hour. When "Predict" is
pressed, the handler puts the nine sidebar parameters into a dictionary,
adds four derived features to that same dictionary, reads the thirteen
entries out in the order of a feature schema loaded at start-up, and hands
that vector to a fitted scaler and a linear-regression model. Any exception
along the way is shown as an error message instead of a prediction.

The model covers everything before the scaler:

- `outcome.dfy` (module `Outcome`): the two failures of these steps,
  a division by zero and a schema name with no feature, and a `Result` type
  that carries them in place of Python exceptions.
- `derivation.dfy` (module `Derivation`): the nine raw parameters (`Raw`),
  the sidebar's bounds (`InDomain`), a name-by-name reference definition of
  every feature (`FeatureValue`), and `Derive`, a method that builds the map
  and then adds the four derived entries one assignment at a time, as the
  handler mutates its dictionary.
- `assembly.dfy` (module `Assembly`): `Assemble`, the schema-ordered lookup,
  failing on the first missing name as the list comprehension's `KeyError`
  does. The map is passed as a value, so the lookup cannot change it.
- `predict.dfy` (module `Predict`): `PrepareInput`, the handler's steps up to
  the scaler, and the lemma joining derivation and assembly.

Python floats are modelled by exact `real`s. The source's division by zero
(a `ZeroDivisionError`, caught by the handler) is modelled as an error
result, not as a precondition. A lemma shows that the sidebar's bounds rule
it out.

## Model

| member | source | states |
|---|---|---|
| Derivation.Derive | app.py:44-60 | fails with a division by zero exactly when the pressure is 0 (reported for Temperature_Pressure_Ratio, line 57) or Cycle_Time + 1 is 0 (reported for Efficiency_Score, line 59); otherwise the map has exactly the thirteen feature names, and each holds its raw value or its formula |
| Derivation.FeatureMapShape | app.py:44-60 | a derived feature map has 13 distinct keys: 9 raw names and 4 derived names, the two sets disjoint, so no derived entry overwrites a raw one; each raw key holds its input value unchanged |
| Derivation.DomainExcludesZeroDivision | app.py:31-32 | within the sidebar's bounds the pressure is at least 80 and Cycle_Time + 1 at least 16, so neither division of lines 57 and 59 can fail |
| Derivation.UtilizationBounds | app.py:60 | with Maintenance_Hours in [0, 200], Machine_Utilization = 1 - hours/200 lies in [0, 1]; it is 1 at 0 hours and 0 at 200 hours |
| Derivation.DerivedBounds | app.py:57-59 | within the sidebar's bounds Temperature_Pressure_Ratio lies in [1.2, 3.125], Total_Cycle_Time in [23, 65] and Efficiency_Score in [1/46, 7.5] |
| Assembly.Assemble | app.py:63 | succeeds exactly when every schema name is a key of the map; the vector then has the schema's length and its i-th element is the map's value for the i-th schema name; otherwise the error names the first missing schema name |
| Assembly.AssembleRepeatedName | app.py:63 | a name repeated in the schema yields the same value at each of its positions |
| Predict.AssembleFeatureMap | app.py:57-63 | reading a derived feature map through a schema succeeds exactly when every schema name is one of the 13 feature names; then position i holds the feature value of schema name i; otherwise the error names a schema name that is not a feature |
| Predict.PrepareInput | app.py:44-63 | the handler's derive-then-assemble steps succeed exactly when both denominators are non-zero and every schema name is a feature; within the sidebar's bounds, exactly when every schema name is a feature; the vector has the schema's length, element i is the value of schema name i; a zero denominator gives a division error, otherwise a failure names a schema name that is not a feature |

## Left out

- Streamlit page setup, widgets, result layout and footer (app.py:16-38, 70-78, 83-85): presentation only. Only the numeric bounds of the nine inputs (app.py:30-38) are kept, as `InDomain`; the inputs' step sizes only shape the widgets.
- Loading the model, scaler and feature-column list from pickle and JSON files (app.py:7-14): file I/O. The schema is a parameter of type `seq<string>`; a schema holding something other than strings is not modelled.
- The scaler's `transform`, the model's `predict` and the rounding of the prediction to two decimals (app.py:66-68): code in foreign libraries and floating-point rounding of an opaque output.
- Rendering of the caught exception (app.py:80-81): only the failure outcome is modelled, as `Err` with the failure's kind and the offending name, not the message text.
- IEEE-754 double arithmetic: the formulas are computed exactly on `real`, so rounding of the divisions and the subtraction is not modelled. For the same reason only a denominator of exactly zero fails.
