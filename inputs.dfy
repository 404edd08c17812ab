/**
 * The planner's inputs and the ranges its input widgets enforce. A widget
 * never lets a value outside its range through; the model states this both
 * as a validity predicate and as a clamp to the nearest bound.
 */
module Inputs {
  import opened Wrappers
  import opened Activity

  datatype Gender = Male | Female

  /** Who the plan is for: age in years, height in cm, weight in kg. */
  datatype Profile = Profile(gender: Gender, ageYears: int, heightCm: int, weightKg: real)

  /** Everything the form supplies to the calculation. */
  datatype PlanInputs = PlanInputs(profile: Profile, activity: Level, dietDays: int, goalWeightKg: real)

  /** The values as typed, before the widgets apply their ranges; no goal means the default is kept. */
  datatype RawInputs = RawInputs(
    gender: Gender, ageYears: int, heightCm: int, weightKg: real,
    activity: Level, dietDays: int, goalWeightKg: Option<real>)

  const MinAge: int := 15
  const MaxAge: int := 80
  const MinHeight: int := 140
  const MaxHeight: int := 220
  const MinWeight: real := 40.0
  const MaxWeight: real := 200.0
  const MinDietDays: int := 7
  const MaxDietDays: int := 365

  predicate ValidProfile(p: Profile)
  {
    MinAge <= p.ageYears <= MaxAge
    && MinHeight <= p.heightCm <= MaxHeight
    && MinWeight <= p.weightKg <= MaxWeight
  }

  /** The goal lies between the lowest weight allowed and the current weight. */
  predicate ValidInputs(i: PlanInputs)
  {
    ValidProfile(i.profile)
    && MinDietDays <= i.dietDays <= MaxDietDays
    && MinWeight <= i.goalWeightKg <= i.profile.weightKg
  }

  /** An integer widget: the value moved to the nearest bound of [lo, hi]. */
  function ClampInt(x: int, lo: int, hi: int): (r: int)
    requires lo <= hi
    ensures lo <= r <= hi
    ensures lo <= x <= hi ==> r == x
    ensures x < lo ==> r == lo
    ensures hi < x ==> r == hi
  {
    if x < lo then lo else if hi < x then hi else x
  }

  /** A decimal widget: the value moved to the nearest bound of [lo, hi]. */
  function ClampReal(x: real, lo: real, hi: real): (r: real)
    requires lo <= hi
    ensures lo <= r <= hi
    ensures lo <= x <= hi ==> r == x
    ensures x < lo ==> r == lo
    ensures hi < x ==> r == hi
  {
    if x < lo then lo else if hi < x then hi else x
  }

  /** The goal widget's initial value: five kg below the current weight, but never under 40 kg. */
  function GoalDefault(weightKg: real): (r: real)
    ensures r >= MinWeight && r >= weightKg - 5.0
    ensures r == MinWeight || r == weightKg - 5.0
    ensures weightKg >= MinWeight ==> r <= weightKg
  {
    if weightKg - 5.0 >= MinWeight then weightKg - 5.0 else MinWeight
  }

  /**
   * The form as a whole: each number widget clamps to its range, and the goal
   * widget, whose upper bound is the (clamped) current weight, starts at its default.
   */
  function Sanitize(raw: RawInputs): (r: PlanInputs)
    ensures ValidInputs(r)
    ensures r.profile.gender == raw.gender && r.activity == raw.activity
    ensures r.profile.ageYears == ClampInt(raw.ageYears, MinAge, MaxAge)
    ensures r.profile.heightCm == ClampInt(raw.heightCm, MinHeight, MaxHeight)
    ensures r.profile.weightKg == ClampReal(raw.weightKg, MinWeight, MaxWeight)
    ensures r.dietDays == ClampInt(raw.dietDays, MinDietDays, MaxDietDays)
    ensures raw.goalWeightKg.Some? ==>
              r.goalWeightKg == ClampReal(raw.goalWeightKg.value, MinWeight, r.profile.weightKg)
    ensures MinAge <= raw.ageYears <= MaxAge ==> r.profile.ageYears == raw.ageYears
    ensures MinHeight <= raw.heightCm <= MaxHeight ==> r.profile.heightCm == raw.heightCm
    ensures MinWeight <= raw.weightKg <= MaxWeight ==> r.profile.weightKg == raw.weightKg
    ensures MinDietDays <= raw.dietDays <= MaxDietDays ==> r.dietDays == raw.dietDays
    ensures raw.goalWeightKg.None? ==> r.goalWeightKg == GoalDefault(r.profile.weightKg)
    ensures raw.goalWeightKg.Some? && MinWeight <= raw.goalWeightKg.value <= r.profile.weightKg
            ==> r.goalWeightKg == raw.goalWeightKg.value
    ensures raw.goalWeightKg.Some? && raw.goalWeightKg.value > r.profile.weightKg
            ==> r.goalWeightKg == r.profile.weightKg
  {
    var weight := ClampReal(raw.weightKg, MinWeight, MaxWeight);
    var goal := match raw.goalWeightKg
      case None => GoalDefault(weight)
      case Some(g) => ClampReal(g, MinWeight, weight);
    PlanInputs(
      Profile(raw.gender,
              ClampInt(raw.ageYears, MinAge, MaxAge),
              ClampInt(raw.heightCm, MinHeight, MaxHeight),
              weight),
      raw.activity,
      ClampInt(raw.dietDays, MinDietDays, MaxDietDays),
      goal)
  }

  /** The form's initial state: male, 21 years, 181 cm, 80 kg, lightest tier, 42 days, default goal. */
  const Defaults: PlanInputs := PlanInputs(Profile(Male, 21, 181, 80.0), Light, 42, GoalDefault(80.0))

  /** Sanitizing leaves already valid inputs as they are. */
  lemma SanitizeKeepsValid(i: PlanInputs)
    requires ValidInputs(i)
    ensures Sanitize(RawInputs(i.profile.gender, i.profile.ageYears, i.profile.heightCm,
                               i.profile.weightKg, i.activity, i.dietDays, Some(i.goalWeightKg))) == i
  {
  }

  /** The initial form is valid and its goal is 75 kg. */
  lemma DefaultsValid()
    ensures ValidInputs(Defaults) && Defaults.goalWeightKg == 75.0
  {
  }
}
