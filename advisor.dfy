/**
 * The safety advisor: two independent flags with the same 1200 kcal threshold.
 * They are advice only and never change the numbers.
 */
module Advisor {
  const SafetyThreshold: real := 1200.0

  datatype Advisory =
    | AggressiveDeficit  // the daily deficit exceeds the threshold
    | UnsafeTarget       // the target intake is below the threshold

  /** The flags raised for a daily deficit and a target intake. */
  function Advise(dailyDeficit: real, targetCalories: real): (flags: set<Advisory>)
    ensures AggressiveDeficit in flags <==> dailyDeficit > SafetyThreshold
    ensures UnsafeTarget in flags <==> targetCalories < SafetyThreshold
    ensures |flags| <= 2
  {
    (if dailyDeficit > SafetyThreshold then {AggressiveDeficit} else {})
    + (if targetCalories < SafetyThreshold then {UnsafeTarget} else {})
  }

  /** A deficit of at most the threshold against a TDEE of at least twice it raises no flag. */
  lemma NoFlagsWhenModerate(tdee: real, dailyDeficit: real)
    requires 0.0 <= dailyDeficit <= SafetyThreshold && tdee >= 2.0 * SafetyThreshold
    ensures Advise(dailyDeficit, tdee - dailyDeficit) == {}
  {
  }
}
