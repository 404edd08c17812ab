/**
 * One pass of the planner, as the form runs it on every change: energy,
 * plan and advisories from the inputs, then the day list, the intake log
 * and the chart data.
 */
module Planner {
  import opened Wrappers
  import opened Activity
  import opened Inputs
  import opened Energy
  import opened Deficit
  import opened Advisor
  import opened Tracking

  datatype Assessment = Assessment(energy: EnergyResult, plan: PlanResult, advisories: set<Advisory>)

  /** The calculation pipeline: BMR, TDEE, daily deficit, target intake and the flags on them. */
  function Assess(i: PlanInputs): (a: Assessment)
    ensures a.energy == ComputeEnergy(i.profile, i.activity)
    ensures a.plan == ComputePlan(i.profile.weightKg, i.goalWeightKg, i.dietDays, a.energy.tdee)
    ensures a.plan.targetCalories == a.energy.tdee - a.plan.dailyDeficit
    ensures AggressiveDeficit in a.advisories <==> a.plan.dailyDeficit > SafetyThreshold
    ensures UnsafeTarget in a.advisories <==> a.plan.targetCalories < SafetyThreshold
    ensures ValidInputs(i) ==> MinBmr <= a.energy.bmr < a.energy.tdee
    ensures ValidInputs(i) ==> 0.0 <= a.plan.dailyDeficit && a.plan.targetCalories <= a.energy.tdee
    ensures ValidInputs(i) ==> (a.plan.dailyDeficit == 0.0 <==> i.goalWeightKg == i.profile.weightKg)
  {
    var energy := ComputeEnergy(i.profile, i.activity);
    var plan := ComputePlan(i.profile.weightKg, i.goalWeightKg, i.dietDays, energy.tdee);
    Assessment(energy, plan, Advise(plan.dailyDeficit, plan.targetCalories))
  }

  datatype Report = Report(assessment: Assessment, days: seq<int>, logged: seq<int>,
                           chart: Option<seq<ChartRow>>)

  /**
   * A full pass of the form with the values stored in the session for each
   * day. For valid inputs the chart has one row per diet day, row d carries
   * day d and that day's reading, and every row carries the same target.
   */
  method RunSession(i: PlanInputs, entries: map<int, int>) returns (report: Report)
    ensures report.assessment == Assess(i)
    ensures report.days == Days(i.dietDays)
    ensures report.logged == Readings(report.days, entries)
    ensures report.chart == BuildChart(i.dietDays, report.days, report.logged,
                                       report.assessment.plan.targetCalories)
    ensures ValidInputs(i) ==> report.chart.Some? && |report.chart.value| == i.dietDays
    ensures ValidInputs(i) ==> forall k :: 0 <= k < |report.chart.value| ==>
              report.chart.value[k].day == k + 1
              && report.chart.value[k].eaten == Reading(entries, k + 1)
              && report.chart.value[k].target == report.assessment.plan.targetCalories
  {
    var assessment := Assess(i);
    var days := Days(i.dietDays);
    var logged := LogIntake(days, entries);
    var chart := BuildChart(i.dietDays, days, logged, assessment.plan.targetCalories);
    report := Report(assessment, days, logged, chart);
  }

  /**
   * The initial form (goal 75 kg over 42 days): a daily deficit of 2750/3
   * (about 916.67) kcal, a target of about 1601.30 kcal, and no flag.
   */
  lemma DefaultAssessment()
    ensures Assess(Defaults).energy == EnergyResult(1831.25, 2517.96875)
    ensures Assess(Defaults).plan == PlanResult(2750.0 / 3.0, 2517.96875 - 2750.0 / 3.0)
    ensures Assess(Defaults).advisories == {}
  {
  }

  /** Goal 60 kg in 14 days: 11000 kcal/day of deficit, a negative target, and both flags. */
  const Crash: PlanInputs := PlanInputs(Profile(Male, 21, 181, 80.0), Light, 14, 60.0)

  /** A valid plan whose target is negative: the target is not clamped. */
  lemma CrashDietAssessment()
    ensures ValidInputs(Crash)
    ensures Assess(Crash).plan == PlanResult(11000.0, -8482.03125)
    ensures Assess(Crash).plan.targetCalories < 0.0
    ensures Assess(Crash).advisories == {AggressiveDeficit, UnsafeTarget}
  {
  }

  /** A heavy, tall, very active man losing 20 kg in 100 days: TDEE 6279.5, deficit 1540, only the deficit flag. */
  const OnlyAggressive: PlanInputs := PlanInputs(Profile(Male, 15, 220, 200.0), VeryIntense, 100, 180.0)

  /** A light, short, older woman keeping her weight: TDEE 981.75, no deficit, only the low-target flag. */
  const OnlyUnsafe: PlanInputs := PlanInputs(Profile(Female, 80, 140, 40.0), Light, 7, 40.0)

  /** The two flags are independent: each of the four combinations occurs for valid inputs. */
  lemma AdvisoriesIndependent()
    ensures ValidInputs(Defaults) && Assess(Defaults).advisories == {}
    ensures ValidInputs(OnlyAggressive) && Assess(OnlyAggressive).advisories == {AggressiveDeficit}
    ensures ValidInputs(OnlyUnsafe) && Assess(OnlyUnsafe).advisories == {UnsafeTarget}
    ensures ValidInputs(Crash) && Assess(Crash).advisories == {AggressiveDeficit, UnsafeTarget}
  {
  }
}
