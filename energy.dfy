/**
 * Energy expenditure: the Mifflin-St Jeor basal metabolic rate (BMR) and
 * the total daily energy expenditure (TDEE), BMR scaled by the activity factor.
 */
module Energy {
  import opened Activity
  import opened Inputs

  /** Lowest BMR over the valid ranges: a woman of 80, 140 cm, 40 kg. */
  const MinBmr: real := 714.0

  /** Basal metabolic rate in kcal/day; the two equations differ only in their constant. */
  function Bmr(p: Profile): (r: real)
    ensures ValidProfile(p) ==> r >= MinBmr
  {
    if p.gender == Male then
      10.0 * p.weightKg + 6.25 * (p.heightCm as real) - 5.0 * (p.ageYears as real) + 5.0
    else
      10.0 * p.weightKg + 6.25 * (p.heightCm as real) - 5.0 * (p.ageYears as real) - 161.0
  }

  /** Total daily energy expenditure in kcal/day. */
  function Tdee(bmr: real, factor: real): (r: real)
    ensures bmr > 0.0 && factor > 1.0 ==> r > bmr
    ensures bmr > 0.0 && factor > 0.0 ==> r > 0.0
  {
    bmr * factor
  }

  datatype EnergyResult = EnergyResult(bmr: real, tdee: real)

  /** BMR and TDEE for a profile and an activity tier. */
  function ComputeEnergy(p: Profile, l: Level): (r: EnergyResult)
    ensures r.bmr == Bmr(p) && r.tdee == Tdee(r.bmr, Factor(l))
    ensures ValidProfile(p) ==> MinBmr <= r.bmr < r.tdee
  {
    EnergyResult(Bmr(p), Tdee(Bmr(p), Factor(l)))
  }

  /** For equal weight, height and age, a man's BMR exceeds a woman's by exactly 166 kcal. */
  lemma GenderOffset(age: int, height: int, weight: real)
    ensures Bmr(Profile(Male, age, height, weight)) - Bmr(Profile(Female, age, height, weight)) == 166.0
  {
  }

  /** The lower bound MinBmr is attained, so it is the minimum over the valid ranges. */
  lemma MinBmrAttained()
    ensures ValidProfile(Profile(Female, MaxAge, MinHeight, MinWeight))
    ensures Bmr(Profile(Female, MaxAge, MinHeight, MinWeight)) == MinBmr
  {
  }

  /** BMR rises by 10 kcal per kg and 6.25 kcal per cm, and falls by 5 kcal per year. */
  lemma BmrSlopes(p: Profile, dw: real, dh: int, da: int)
    ensures Bmr(p.(weightKg := p.weightKg + dw)) == Bmr(p) + 10.0 * dw
    ensures Bmr(p.(heightCm := p.heightCm + dh)) == Bmr(p) + 6.25 * (dh as real)
    ensures Bmr(p.(ageYears := p.ageYears + da)) == Bmr(p) - 5.0 * (da as real)
  {
  }

  /** For a fixed positive BMR, TDEE increases strictly with the activity factor. */
  lemma TdeeStrictlyIncreasing(bmr: real, f1: real, f2: real)
    requires bmr > 0.0 && f1 < f2
    ensures Tdee(bmr, f1) < Tdee(bmr, f2)
  {
  }

  /** A higher activity tier always yields a higher TDEE for a valid profile. */
  lemma TdeeFollowsTiers(p: Profile, a: Level, b: Level)
    requires ValidProfile(p) && Rank(a) < Rank(b)
    ensures ComputeEnergy(p, a).tdee < ComputeEnergy(p, b).tdee
  {
    FactorStrictlyIncreasing(a, b);
    TdeeStrictlyIncreasing(Bmr(p), Factor(a), Factor(b));
  }

  /** The form's initial profile gives BMR 1831.25 and, at factor 1.375, TDEE 2517.96875. */
  lemma DefaultEnergy()
    ensures ComputeEnergy(Profile(Male, 21, 181, 80.0), Light) == EnergyResult(1831.25, 2517.96875)
  {
  }
}
