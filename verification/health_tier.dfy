/** The traffic-light colouring of two aliveness figures on a project card. */
module HealthTier {

  datatype Tier = Green | Yellow | Red

  /** How bad a tier is: Green is healthiest, Red the worst. */
  function Severity(t: Tier): (n: nat) {
    match t
    case Green => 0
    case Yellow => 1
    case Red => 2
  }

  /** The text-colour classes each tier is drawn with. */
  function ClassOf(t: Tier): (c: string) {
    match t
    case Green => "text-green-600 dark:text-green-400"
    case Yellow => "text-yellow-600 dark:text-yellow-400"
    case Red => "text-red-600 dark:text-red-400"
  }

  /** Days since the last commit: a week or less is healthy, up to a month is a warning. */
  function RecencyTier(days: int): (t: Tier)
    ensures t == Green <==> days <= 7
    ensures t == Yellow <==> 7 < days <= 30
    ensures t == Red <==> 30 < days
  {
    if days <= 7 then Green
    else if days <= 30 then Yellow
    else Red
  }

  /** Share of the top contributor: 80% or more is a high risk, 50% or more a warning. */
  function BusFactorTier(percent: int): (t: Tier)
    ensures t == Red <==> 80 <= percent
    ensures t == Yellow <==> 50 <= percent < 80
    ensures t == Green <==> percent < 50
  {
    if percent >= 80 then Red
    else if percent >= 50 then Yellow
    else Green
  }

  /** The colour classes of the days-since-last-commit figure. */
  function RecencyColor(days: int): (c: string)
    ensures c == "text-green-600 dark:text-green-400" <==> days <= 7
    ensures c == "text-yellow-600 dark:text-yellow-400" <==> 7 < days <= 30
    ensures c == "text-red-600 dark:text-red-400" <==> 30 < days
  {
    ClassOf(RecencyTier(days))
  }

  /** The colour classes of the top-contributor percentage. */
  function BusFactorColor(percent: int): (c: string)
    ensures c == "text-red-600 dark:text-red-400" <==> 80 <= percent
    ensures c == "text-yellow-600 dark:text-yellow-400" <==> 50 <= percent < 80
    ensures c == "text-green-600 dark:text-green-400" <==> percent < 50
  {
    ClassOf(BusFactorTier(percent))
  }

  /** Each tier has its own colour, so the colour shown identifies the tier. */
  lemma ClassOfInjective(t: Tier, u: Tier)
    requires ClassOf(t) == ClassOf(u)
    ensures t == u
  {
  }

  /** An older last commit never shows a healthier tier. */
  lemma RecencyNeverImproves(older: int, newer: int)
    requires newer <= older
    ensures Severity(RecencyTier(newer)) <= Severity(RecencyTier(older))
  {
  }

  /** A larger top-contributor share never shows a healthier tier. */
  lemma BusFactorNeverImproves(low: int, high: int)
    requires low <= high
    ensures Severity(BusFactorTier(low)) <= Severity(BusFactorTier(high))
  {
  }
}
