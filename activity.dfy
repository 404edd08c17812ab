/**
 * The activity-level table of the planner: five labelled tiers, each with a
 * fixed multiplier applied to the basal metabolic rate.
 */
module Activity {
  import opened Wrappers

  /** The five tiers, in the order the selection box lists them. */
  datatype Level = Light | Moderate | Daily | Intense | VeryIntense

  /** The name shown for each tier (the dictionary key). */
  function Label(l: Level): string
  {
    match l
    case Light => "1\U{2013}3x / week"
    case Moderate => "4\U{2013}5x / week"
    case Daily => "Daily / intense"
    case Intense => "6\U{2013}7x intense"
    case VeryIntense => "Very intense / physical job"
  }

  /** The name-to-multiplier dictionary. */
  const Table: map<string, real> := map[
    Label(Light) := 1.375,
    Label(Moderate) := 1.47,
    Label(Daily) := 1.58,
    Label(Intense) := 1.75,
    Label(VeryIntense) := 1.9
  ]

  /** Position of a tier in the table, counting from 0. */
  function Rank(l: Level): nat
  {
    match l
    case Light => 0
    case Moderate => 1
    case Daily => 2
    case Intense => 3
    case VeryIntense => 4
  }

  /** Dictionary lookup by name; a name that is not a key yields None. */
  function Lookup(name: string): (r: Option<real>)
    ensures r.Some? <==> name in Table
    ensures r.Some? ==> r.value == Table[name]
  {
    if name in Table then Some(Table[name]) else None
  }

  /** The tier a name names, if any: the inverse of Label. */
  function LevelOf(name: string): (r: Option<Level>)
    ensures r.Some? ==> Label(r.value) == name
  {
    if name == Label(Light) then Some(Light)
    else if name == Label(Moderate) then Some(Moderate)
    else if name == Label(Daily) then Some(Daily)
    else if name == Label(Intense) then Some(Intense)
    else if name == Label(VeryIntense) then Some(VeryIntense)
    else None
  }

  /** The multiplier of a tier, looked up in the table by its name. */
  function Factor(l: Level): (r: real)
    ensures 1.375 <= r <= 1.9
    ensures Lookup(Label(l)) == Some(r)
  {
    Table[Label(l)]
  }

  /** Every name round-trips through LevelOf, so the five labels are distinct. */
  lemma LevelOfLabel(l: Level)
    ensures LevelOf(Label(l)) == Some(l)
  {
  }

  /** The table's keys are exactly the five tier labels. */
  lemma TableKeys(name: string)
    ensures name in Table <==> LevelOf(name).Some?
  {
  }

  /** The multipliers grow strictly along the table order. */
  lemma FactorStrictlyIncreasing(a: Level, b: Level)
    requires Rank(a) < Rank(b)
    ensures Factor(a) < Factor(b)
  {
  }
}
