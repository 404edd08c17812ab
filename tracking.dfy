/**
 * Daily tracking: the list of diet days, the intake logged for each of
 * them, and the rows handed to the chart.
 */
module Tracking {
  import opened Wrappers

  /** The integers lo, lo + 1, ..., hi - 1, empty when hi <= lo (Python's range). */
  function Range(lo: int, hi: int): (r: seq<int>)
    decreases hi - lo
    ensures |r| == if lo < hi then hi - lo else 0
    ensures forall i :: 0 <= i < |r| ==> r[i] == lo + i
  {
    if hi <= lo then [] else [lo] + Range(lo + 1, hi)
  }

  /** The diet's day numbers, 1 through dietDays. */
  function Days(dietDays: int): (r: seq<int>)
    ensures |r| == if dietDays > 0 then dietDays else 0
    ensures forall i :: 0 <= i < |r| ==> r[i] == i + 1
  {
    Range(1, dietDays + 1)
  }

  /** A number is one of the diet's days exactly when it lies in 1..dietDays. */
  lemma DayMembership(dietDays: int, d: int)
    ensures d in Days(dietDays) <==> 1 <= d <= dietDays
  {
    if 1 <= d <= dietDays {
      assert Days(dietDays)[d - 1] == d;
    }
  }

  /**
   * The value a day's intake widget returns: the number stored in the session
   * under that day, or 0 when none was entered. The widget's lower bound of 0
   * lifts a negative number to 0.
   */
  function Reading(entries: map<int, int>, day: int): (v: int)
    ensures v >= 0
    ensures day in entries && entries[day] >= 0 ==> v == entries[day]
    ensures (day !in entries || entries[day] < 0) ==> v == 0
  {
    if day in entries && entries[day] >= 0 then entries[day] else 0
  }

  /** The readings of the given days, in order. */
  function Readings(days: seq<int>, entries: map<int, int>): (r: seq<int>)
    ensures |r| == |days|
    ensures forall i :: 0 <= i < |r| ==> r[i] == Reading(entries, days[i]) && r[i] >= 0
  {
    if days == [] then [] else [Reading(entries, days[0])] + Readings(days[1..], entries)
  }

  /** The tracking loop: one widget reading appended per day, in day order. */
  method LogIntake(days: seq<int>, entries: map<int, int>) returns (logged: seq<int>)
    ensures logged == Readings(days, entries)
    ensures |logged| == |days|
    ensures forall i :: 0 <= i < |logged| ==> logged[i] >= 0
  {
    logged := [];
    for i := 0 to |days|
      invariant |logged| == i
      invariant forall k :: 0 <= k < i ==> logged[k] == Reading(entries, days[k])
    {
      logged := logged + [Reading(entries, days[i])];
    }
  }

  /** A list of n copies of x (Python's [x] * n). */
  function Broadcast(x: real, n: nat): (r: seq<real>)
    ensures |r| == n
    ensures forall i :: 0 <= i < n ==> r[i] == x
  {
    if n == 0 then [] else [x] + Broadcast(x, n - 1)
  }

  /** One chart row: the day, the kcal eaten that day and the target. */
  datatype ChartRow = ChartRow(day: int, eaten: int, target: real)

  /** The chart's table, built column-wise: row i holds the i-th entry of each column. */
  function Rows(days: seq<int>, eaten: seq<int>, targets: seq<real>): (rows: seq<ChartRow>)
    requires |days| == |eaten| == |targets|
    ensures |rows| == |days|
    ensures forall i :: 0 <= i < |rows| ==> rows[i] == ChartRow(days[i], eaten[i], targets[i])
  {
    if days == [] then []
    else [ChartRow(days[0], eaten[0], targets[0])] + Rows(days[1..], eaten[1..], targets[1..])
  }

  /**
   * The chart data: drawn only when the diet has at least one day; the target
   * column repeats the single target value once per day.
   */
  function BuildChart(dietDays: int, days: seq<int>, logged: seq<int>, target: real)
    : (chart: Option<seq<ChartRow>>)
    requires |days| == |logged|
    ensures chart.Some? <==> dietDays > 0
    ensures chart.Some? ==> |chart.value| == |days|
    ensures chart.Some? ==> forall i :: 0 <= i < |days| ==>
              chart.value[i].day == days[i] && chart.value[i].eaten == logged[i]
              && chart.value[i].target == target
  {
    if dietDays > 0 then Some(Rows(days, logged, Broadcast(target, |days|))) else None
  }

  /**
   * Changing the diet's length keeps the readings of the days both lengths
   * share: the shorter log is a prefix of the longer one.
   */
  lemma ResizeKeepsPrefix(n: int, m: int, entries: map<int, int>)
    requires 0 <= n <= m
    ensures Readings(Days(n), entries) == Readings(Days(m), entries)[..n]
  {
  }

  /** Days added by lengthening the diet read 0 until something is entered for them. */
  lemma ExtensionReadsZero(n: int, m: int, entries: map<int, int>, i: int)
    requires 0 <= n <= i < m
    requires forall d :: d in entries ==> d <= n
    ensures Readings(Days(m), entries)[i] == 0
  {
  }
}
