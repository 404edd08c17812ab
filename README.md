# Calorie & Diet Planner — verified model

This project models the calculation core of the Calorie & Diet Planner, a one-page form. The user enters gender, age, height, weight, an activity level, a diet length in days and a goal weight. From these the planner computes:

- the basal metabolic rate (BMR), using the Mifflin–St Jeor equation;
- the total daily energy expenditure (TDEE), which is BMR times the activity factor;
- the daily calorie deficit needed to reach the goal, at 7700 kcal per kg;
- the target daily intake, which is TDEE minus the deficit.

It then raises two independent safety flags, each with a threshold of 1200 kcal. Last, it collects one logged intake per diet day and assembles the rows of a chart where the target is a constant line.

All quantities are exact `real` numbers. Age, height, diet length and logged calories are integers, as in the form. The modules follow the pipeline:

- `Activity`: the activity table and its lookup.
- `Inputs`: the widget ranges, as a validity predicate and as a clamp; also the goal default.
- `Energy`: BMR and TDEE.
- `Deficit`: the daily deficit and the target.
- `Advisor`: the two flags.
- `Tracking`: the day list, the intake-log loop and the chart rows.
- `Planner`: one full pass of the form, plus worked examples.

## Model

| member | source | states |
|---|---|---|
| `Activity.Lookup` | calorie_app.py:42-55 | looking up a label succeeds exactly when the label is a key of the table, and then gives that key's multiplier |
| `Activity.LevelOf` | calorie_app.py:50-53 | any tier it returns has the given text as its label |
| `Activity.Factor` | calorie_app.py:42-55 | every multiplier lies in [1.375, 1.9]; looking up a tier's label gives its multiplier |
| `Activity.LevelOfLabel` | calorie_app.py:42-53 | every label maps back to its own tier, so the five labels are distinct |
| `Activity.TableKeys` | calorie_app.py:42-53 | the table's keys are exactly the five tier labels the selection box offers |
| `Activity.FactorStrictlyIncreasing` | calorie_app.py:42-48 | the multipliers increase strictly in table order |
| `Inputs.ClampInt` | calorie_app.py:18-30 | an integer widget's value lies in its range, equals the input when the input is in range, and is the nearer bound otherwise |
| `Inputs.ClampReal` | calorie_app.py:32-37 | the same for a decimal widget |
| `Inputs.GoalDefault` | calorie_app.py:67-72 | the default goal is the larger of weight−5 and 40, so it is ≥ 40, and ≤ weight whenever weight ≥ 40 |
| `Inputs.Sanitize` | calorie_app.py:18-72 | the form's values always satisfy every range: age 15–80, height 140–220, weight 40–200, 7–365 days, goal between 40 and the current weight. Each entry is clamped to its range: in-range entries are kept, out-of-range ones go to the nearer bound, a goal above the weight is capped at the weight, and an untouched goal takes the default |
| `Inputs.SanitizeKeepsValid` | calorie_app.py:18-72 | inputs that are already valid pass through the widgets unchanged |
| `Inputs.DefaultsValid` | calorie_app.py:16-72 | the form's initial values are valid, and the initial goal is 75 kg |
| `Energy.Bmr` | calorie_app.py:75-78 | over the valid ranges BMR is at least 714 kcal, so it is always positive |
| `Energy.Tdee` | calorie_app.py:81 | with a positive BMR and a factor above 1, TDEE is positive and exceeds BMR |
| `Energy.ComputeEnergy` | calorie_app.py:75-81 | for a valid profile, 714 ≤ BMR < TDEE |
| `Energy.GenderOffset` | calorie_app.py:75-78 | for the same weight, height and age, male BMR minus female BMR is exactly 166 |
| `Energy.MinBmrAttained` | calorie_app.py:18-78 | a woman aged 80, 140 cm tall and weighing 40 kg is a valid profile with BMR exactly 714, so 714 is the minimum |
| `Energy.BmrSlopes` | calorie_app.py:75-78 | BMR changes by +10 per kg, +6.25 per cm and −5 per year |
| `Energy.TdeeStrictlyIncreasing` | calorie_app.py:81 | for a fixed positive BMR, TDEE increases strictly with the activity factor |
| `Energy.TdeeFollowsTiers` | calorie_app.py:42-81 | for a valid profile, a higher activity tier gives a strictly higher TDEE |
| `Energy.DefaultEnergy` | calorie_app.py:16-81 | the initial profile (male, 21, 181 cm, 80 kg, factor 1.375) gives BMR 1831.25 and TDEE 2517.96875 |
| `Deficit.DailyDeficit` | calorie_app.py:83-85 | with no diet days the deficit is 0. Otherwise the deficit times the day count is (weight − goal) × 7700. It is ≥ 0 when goal ≤ weight, and 0 exactly when goal = weight |
| `Deficit.TargetCalories` | calorie_app.py:87 | target plus deficit is exactly TDEE; there is no clamp, so a non-negative deficit puts the target at or below TDEE |
| `Deficit.ComputePlan` | calorie_app.py:83-87 | target = TDEE − daily deficit; when goal ≤ weight the deficit is ≥ 0 and the target ≤ TDEE |
| `Deficit.DeficitShrinksWithDuration` | calorie_app.py:83-85 | for the same loss, a longer diet never needs a larger daily deficit |
| `Deficit.DeficitGrowsWithLoss` | calorie_app.py:83-85 | over the same diet, a lower goal needs a strictly larger daily deficit |
| `Advisor.Advise` | calorie_app.py:98-108 | the aggressive-deficit flag is raised iff the deficit > 1200; the low-target flag is raised iff the target < 1200; no other flag exists |
| `Advisor.NoFlagsWhenModerate` | calorie_app.py:98-108 | a deficit in [0, 1200] against a TDEE of at least 2400 raises no flag |
| `Tracking.Range` | calorie_app.py:113 | `range(lo, hi)` has max(hi − lo, 0) elements, and element i is lo + i |
| `Tracking.Days` | calorie_app.py:113 | the day list has diet_days elements (none if diet_days ≤ 0), and element i is i + 1 |
| `Tracking.DayMembership` | calorie_app.py:113 | a number is in the day list exactly when it lies in 1..diet_days |
| `Tracking.Reading` | calorie_app.py:116-124 | a day's logged value is ≥ 0: the value stored for that day, or 0 when none is stored |
| `Tracking.Readings` | calorie_app.py:116-124 | the readings list has one entry per day, in day order, each entry that day's reading |
| `Tracking.LogIntake` | calorie_app.py:114-124 | the append loop leaves exactly the readings list: one non-negative value per day, in order |
| `Tracking.Broadcast` | calorie_app.py:131 | `[x] * n` has n elements, all equal to x |
| `Tracking.Rows` | calorie_app.py:128-132 | the table has one row per day; row i holds the i-th day, eaten value and target |
| `Tracking.BuildChart` | calorie_app.py:127-132 | chart data exists iff diet_days > 0. It then has one row per day: row i holds the i-th entry of the day list and of the log (for the diet's day list, row k is day k + 1 with that day's reading), and every target entry equals the single target |
| `Tracking.ResizeKeepsPrefix` | calorie_app.py:113-124 | changing the diet length keeps the readings of the days both lengths share |
| `Tracking.ExtensionReadsZero` | calorie_app.py:113-124 | days added by lengthening the diet read 0 until a value is stored for them |
| `Planner.Assess` | calorie_app.py:75-108 | target = TDEE − deficit, and each flag fires on its threshold. For valid inputs: 714 ≤ BMR < TDEE; the deficit is ≥ 0; the deficit is 0 iff goal = weight |
| `Planner.RunSession` | calorie_app.py:75-132 | a full pass. For valid inputs the chart has exactly diet_days rows; row k is day k + 1 with that day's reading; every row's target is the computed target |
| `Planner.DefaultAssessment` | calorie_app.py:16-108 | the initial form gives a deficit of 2750/3 ≈ 916.67 and a target of 2517.96875 − 2750/3 ≈ 1601.30, and raises no flag |
| `Planner.CrashDietAssessment` | calorie_app.py:83-108 | goal 60 kg in 14 days is valid. It gives a deficit of 11000 and a target of −8482.03125, which is negative because nothing clamps it, and both flags fire |
| `Planner.AdvisoriesIndependent` | calorie_app.py:98-108 | each of the four flag combinations (none, deficit only, target only, both) occurs for some valid inputs |

## Left out

- Page setup, titles, captions, subheaders and the result metrics are presentation only (calorie_app.py:1-14, 90-95). This includes the `int(...)` truncation applied when the numbers are displayed.
- The text of the warning and the error is left out. Only the two flags are modelled.
- The widget mechanics are left out: selection boxes, number inputs, widget keys and session state. Three stand-ins replace them:
  - The range a number widget enforces is modelled as a clamp (`Inputs.Sanitize`).
  - The label chosen from the selection box is modelled as an activity tier.
  - The values stored per day are a map from day number to integer. A missing day reads 0, the widget's default. A negative stored value reads 0, the widget's minimum.
- The pandas table and the line chart are library calls. The chart data is modelled as a sequence of (day, eaten, target) rows (`Tracking.ChartRow`).
- Floating point is left out. All arithmetic is exact over the reals, so results do not carry IEEE rounding. For example, TDEE for the initial form is exactly 2517.96875.
- A separate "set entry" operation on the log is not modelled. The program has none: a day's value lives in the session state under that day's widget. Resizing the diet keeps entries of shared days (`Tracking.ResizeKeepsPrefix`).
