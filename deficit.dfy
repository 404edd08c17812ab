/**
 * The deficit planner: the weight to lose becomes a total energy deficit at
 * 7700 kcal per kg, spread evenly over the diet; the target intake is TDEE
 * minus that daily deficit.
 */
module Deficit {
  /** Energy stored in one kg of body fat, in kcal. */
  const KcalPerKg: real := 7700.0

  datatype PlanResult = PlanResult(dailyDeficit: real, targetCalories: real)

  /**
   * Daily deficit in kcal/day. A diet of no days has no daily deficit (the
   * guard against division by zero); otherwise the daily deficit summed over
   * the diet's days is the energy the lost weight holds.
   */
  function DailyDeficit(weightKg: real, goalWeightKg: real, dietDays: int): (r: real)
    ensures dietDays <= 0 ==> r == 0.0
    ensures dietDays > 0 ==> r * (dietDays as real) == (weightKg - goalWeightKg) * KcalPerKg
    ensures goalWeightKg <= weightKg ==> r >= 0.0
    ensures dietDays > 0 ==> (r == 0.0 <==> goalWeightKg == weightKg)
  {
    var weightToLose := weightKg - goalWeightKg;
    var totalDeficit := weightToLose * KcalPerKg;
    if dietDays > 0 then totalDeficit / (dietDays as real) else 0.0
  }

  /** Target intake in kcal/day: what is left of TDEE after the deficit; never clamped. */
  function TargetCalories(tdee: real, dailyDeficit: real): (r: real)
    ensures r + dailyDeficit == tdee
    ensures dailyDeficit >= 0.0 ==> r <= tdee
  {
    tdee - dailyDeficit
  }

  /** The planner's two results for one set of inputs. */
  function ComputePlan(weightKg: real, goalWeightKg: real, dietDays: int, tdee: real): (r: PlanResult)
    ensures r.dailyDeficit == DailyDeficit(weightKg, goalWeightKg, dietDays)
    ensures r.targetCalories == tdee - r.dailyDeficit
    ensures goalWeightKg <= weightKg ==> 0.0 <= r.dailyDeficit && r.targetCalories <= tdee
  {
    var deficit := DailyDeficit(weightKg, goalWeightKg, dietDays);
    PlanResult(deficit, TargetCalories(tdee, deficit))
  }

  /** A longer diet for the same loss never needs a larger daily deficit. */
  lemma DeficitShrinksWithDuration(weightKg: real, goalWeightKg: real, d1: int, d2: int)
    requires goalWeightKg <= weightKg && 0 < d1 <= d2
    ensures DailyDeficit(weightKg, goalWeightKg, d2) <= DailyDeficit(weightKg, goalWeightKg, d1)
  {
    var r1 := DailyDeficit(weightKg, goalWeightKg, d1);
    var r2 := DailyDeficit(weightKg, goalWeightKg, d2);
    assert r1 * (d1 as real) == r2 * (d2 as real);
    assert r2 * (d1 as real) <= r2 * (d2 as real);
  }

  /** Losing more weight over the same diet needs a strictly larger daily deficit. */
  lemma DeficitGrowsWithLoss(weightKg: real, g1: real, g2: real, dietDays: int)
    requires g2 < g1 && dietDays > 0
    ensures DailyDeficit(weightKg, g1, dietDays) < DailyDeficit(weightKg, g2, dietDays)
  {
    var r1 := DailyDeficit(weightKg, g1, dietDays);
    var r2 := DailyDeficit(weightKg, g2, dietDays);
    var d := dietDays as real;
    var x := r2 - r1;
    assert x * d == (g1 - g2) * KcalPerKg > 0.0;
    ProductSign(x, d);
  }

  /** A product with a positive right factor has the sign of its left factor. */
  lemma ProductSign(x: real, y: real)
    requires y > 0.0
    ensures x * y > 0.0 <==> x > 0.0
  {
  }
}
