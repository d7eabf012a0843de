/** The feature-engineering step of the "Predict" handler (app.py): nine raw
    machine parameters go into a dictionary, and four derived features are then
    added to that same dictionary. Python floats are modelled by exact `real`s. */
module Derivation {
  import opened Outcome

  // The nine raw parameter names, the keys of the dictionary built at app.py:44-54.
  const INJECTION_TEMPERATURE := "Injection_Temperature"
  const INJECTION_PRESSURE := "Injection_Pressure"
  const CYCLE_TIME := "Cycle_Time"
  const COOLING_TIME := "Cooling_Time"
  const MATERIAL_VISCOSITY := "Material_Viscosity"
  const AMBIENT_TEMPERATURE := "Ambient_Temperature"
  const MACHINE_AGE := "Machine_Age"
  const OPERATOR_EXPERIENCE := "Operator_Experience"
  const MAINTENANCE_HOURS := "Maintenance_Hours"

  // The four derived feature names, added at app.py:57-60.
  const TEMPERATURE_PRESSURE_RATIO := "Temperature_Pressure_Ratio"
  const TOTAL_CYCLE_TIME := "Total_Cycle_Time"
  const EFFICIENCY_SCORE := "Efficiency_Score"
  const MACHINE_UTILIZATION := "Machine_Utilization"

  const RAW_NAMES: set<string> := {
    INJECTION_TEMPERATURE, INJECTION_PRESSURE, CYCLE_TIME, COOLING_TIME, MATERIAL_VISCOSITY,
    AMBIENT_TEMPERATURE, MACHINE_AGE, OPERATOR_EXPERIENCE, MAINTENANCE_HOURS }
  const DERIVED_NAMES: set<string> := {
    TEMPERATURE_PRESSURE_RATIO, TOTAL_CYCLE_TIME, EFFICIENCY_SCORE, MACHINE_UTILIZATION }
  const FEATURE_NAMES: set<string> := RAW_NAMES + DERIVED_NAMES

  /** The nine values read from the sidebar. */
  datatype Raw = Raw(
    injectionTemperature: real,  // °C
    injectionPressure: real,     // bar
    cycleTime: real,             // s
    coolingTime: real,           // s
    materialViscosity: real,     // Pa·s
    ambientTemperature: real,    // °C
    machineAge: real,            // years
    operatorExperience: real,    // months
    maintenanceHours: real)      // hours since last service

  /** The inclusive [min, max] bounds the sidebar's number inputs enforce (app.py:30-38). */
  predicate InDomain(r: Raw) {
    && 180.0 <= r.injectionTemperature <= 250.0
    && 80.0 <= r.injectionPressure <= 150.0
    && 15.0 <= r.cycleTime <= 45.0
    && 8.0 <= r.coolingTime <= 20.0
    && 100.0 <= r.materialViscosity <= 400.0
    && 18.0 <= r.ambientTemperature <= 28.0
    && 1.0 <= r.machineAge <= 15.0
    && 1.0 <= r.operatorExperience <= 120.0
    && 0.0 <= r.maintenanceHours <= 200.0
  }

  /** Neither division of the derivation has a zero denominator. */
  predicate DivisorsNonZero(r: Raw) {
    r.injectionPressure != 0.0 && r.cycleTime + 1.0 != 0.0
  }

  /** Reference definition of every entry of the finished feature map, name by name:
      a raw name gives its input value, a derived name its formula. */
  function FeatureValue(r: Raw, name: string): real
    requires DivisorsNonZero(r) && name in FEATURE_NAMES
  {
    if name == INJECTION_TEMPERATURE then r.injectionTemperature
    else if name == INJECTION_PRESSURE then r.injectionPressure
    else if name == CYCLE_TIME then r.cycleTime
    else if name == COOLING_TIME then r.coolingTime
    else if name == MATERIAL_VISCOSITY then r.materialViscosity
    else if name == AMBIENT_TEMPERATURE then r.ambientTemperature
    else if name == MACHINE_AGE then r.machineAge
    else if name == OPERATOR_EXPERIENCE then r.operatorExperience
    else if name == MAINTENANCE_HOURS then r.maintenanceHours
    else if name == TEMPERATURE_PRESSURE_RATIO then r.injectionTemperature / r.injectionPressure
    else if name == TOTAL_CYCLE_TIME then r.cycleTime + r.coolingTime
    else if name == EFFICIENCY_SCORE then r.operatorExperience / (r.cycleTime + 1.0)
    else 1.0 - r.maintenanceHours / 200.0
  }

  /** `m` is the feature map of `r`: exactly the thirteen names, each with its value. */
  ghost predicate Derives(r: Raw, m: map<string, real>) {
    && DivisorsNonZero(r)
    && m.Keys == FEATURE_NAMES
    && forall name :: name in m ==> m[name] == FeatureValue(r, name)
  }

  /** Builds the raw dictionary, then adds the four derived entries to it in place,
      in the source's order. A zero denominator raises ZeroDivisionError in Python:
      first the ratio's (line 57), then the efficiency score's (line 59). */
  method Derive(r: Raw) returns (res: Result<map<string, real>>)
    ensures res.Ok? <==> DivisorsNonZero(r)
    ensures r.injectionPressure == 0.0 ==> res == Err(ZeroDivision(TEMPERATURE_PRESSURE_RATIO))
    ensures r.injectionPressure != 0.0 && r.cycleTime + 1.0 == 0.0 ==>
              res == Err(ZeroDivision(EFFICIENCY_SCORE))
    ensures res.Ok? ==> Derives(r, res.value)
  {
    var inputData := map[
      INJECTION_TEMPERATURE := r.injectionTemperature,
      INJECTION_PRESSURE := r.injectionPressure,
      CYCLE_TIME := r.cycleTime,
      COOLING_TIME := r.coolingTime,
      MATERIAL_VISCOSITY := r.materialViscosity,
      AMBIENT_TEMPERATURE := r.ambientTemperature,
      MACHINE_AGE := r.machineAge,
      OPERATOR_EXPERIENCE := r.operatorExperience,
      MAINTENANCE_HOURS := r.maintenanceHours];

    if r.injectionPressure == 0.0 {
      return Err(ZeroDivision(TEMPERATURE_PRESSURE_RATIO));
    }
    inputData := inputData[TEMPERATURE_PRESSURE_RATIO := r.injectionTemperature / r.injectionPressure];
    inputData := inputData[TOTAL_CYCLE_TIME := r.cycleTime + r.coolingTime];
    if r.cycleTime + 1.0 == 0.0 {
      return Err(ZeroDivision(EFFICIENCY_SCORE));
    }
    inputData := inputData[EFFICIENCY_SCORE := r.operatorExperience / (r.cycleTime + 1.0)];
    inputData := inputData[MACHINE_UTILIZATION := 1.0 - r.maintenanceHours / 200.0];
    return Ok(inputData);
  }

  /** The feature map holds thirteen distinct names: the nine raw ones, which
      keep their input values, and the four derived ones, none of which
      overwrites a raw entry. */
  lemma FeatureMapShape(r: Raw, m: map<string, real>)
    requires Derives(r, m)
    ensures |m| == 13 && RAW_NAMES !! DERIVED_NAMES
    ensures |RAW_NAMES| == 9 && |DERIVED_NAMES| == 4
    ensures m[INJECTION_TEMPERATURE] == r.injectionTemperature
    ensures m[INJECTION_PRESSURE] == r.injectionPressure
    ensures m[CYCLE_TIME] == r.cycleTime
    ensures m[COOLING_TIME] == r.coolingTime
    ensures m[MATERIAL_VISCOSITY] == r.materialViscosity
    ensures m[AMBIENT_TEMPERATURE] == r.ambientTemperature
    ensures m[MACHINE_AGE] == r.machineAge
    ensures m[OPERATOR_EXPERIENCE] == r.operatorExperience
    ensures m[MAINTENANCE_HOURS] == r.maintenanceHours
  {
    RawNamesCount();
    DerivedNamesCount();
    assert RAW_NAMES !! DERIVED_NAMES;
    assert |FEATURE_NAMES| == 13;
  }

  lemma RawNamesCount()
    ensures |RAW_NAMES| == 9
  {
  }

  lemma DerivedNamesCount()
    ensures |DERIVED_NAMES| == 4
  {
  }

  /** The sidebar's bounds keep both denominators away from zero: the pressure is
      at least 80 and Cycle_Time + 1 at least 16. */
  lemma DomainExcludesZeroDivision(r: Raw)
    requires InDomain(r)
    ensures DivisorsNonZero(r)
    ensures r.injectionPressure >= 80.0 && r.cycleTime + 1.0 >= 16.0
  {
  }

  /** Machine_Utilization falls from 1 at 0 maintenance hours to 0 at 200 hours,
      and stays within [0, 1] over the whole input domain. */
  lemma UtilizationBounds(r: Raw)
    requires InDomain(r)
    ensures 0.0 <= FeatureValue(r, MACHINE_UTILIZATION) <= 1.0
    ensures r.maintenanceHours == 0.0 ==> FeatureValue(r, MACHINE_UTILIZATION) == 1.0
    ensures r.maintenanceHours == 200.0 ==> FeatureValue(r, MACHINE_UTILIZATION) == 0.0
  {
  }

  /** Over the input domain, Total_Cycle_Time lies in [23, 65],
      Temperature_Pressure_Ratio in [180/150, 250/80] = [1.2, 3.125] and
      Efficiency_Score in [1/46, 120/16] = [1/46, 7.5]. */
  lemma DerivedBounds(r: Raw)
    requires InDomain(r)
    ensures 23.0 <= FeatureValue(r, TOTAL_CYCLE_TIME) <= 65.0
    ensures 1.2 <= FeatureValue(r, TEMPERATURE_PRESSURE_RATIO) <= 3.125
    ensures 1.0 / 46.0 <= FeatureValue(r, EFFICIENCY_SCORE) <= 7.5
  {
    var t, p := r.injectionTemperature, r.injectionPressure;
    DivisionGrowsWithNumerator(180.0, t, 150.0);
    DivisionShrinksWithDenominator(t, p, 150.0);
    DivisionShrinksWithDenominator(t, 80.0, p);
    DivisionGrowsWithNumerator(t, 250.0, 80.0);
    var e, c := r.operatorExperience, r.cycleTime + 1.0;
    DivisionGrowsWithNumerator(1.0, e, 46.0);
    DivisionShrinksWithDenominator(e, c, 46.0);
    DivisionShrinksWithDenominator(e, 16.0, c);
    DivisionGrowsWithNumerator(e, 120.0, 16.0);
  }

  lemma DivisionGrowsWithNumerator(a: real, b: real, d: real)
    requires a <= b && 0.0 < d
    ensures a / d <= b / d
  {
  }

  lemma DivisionShrinksWithDenominator(a: real, d: real, e: real)
    requires 0.0 <= a && 0.0 < d <= e
    ensures a / e <= a / d
  {
  }
}
