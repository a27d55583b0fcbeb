/**
 * The Sabbath blackout: from Friday 15:00 until the end of Saturday (local
 * day of week 0-6 with Sunday 0, local hour 0-23) the index is not computed.
 */
module Blackout {
  import opened Wrappers
  import opened Metric

  const Greeting: string := "שבת שלום"

  /** The blackout test on the local day of week and hour. */
  predicate IsSabbath(day: int, hour: int): (b: bool)
    ensures b ==> day == 5 || day == 6
    ensures day == 6 ==> b
    ensures day == 5 ==> (b <==> hour >= 15)
  {
    day == 6 || (day == 5 && hour >= 15)
  }

  /** Every category's result during the blackout: score 0, the greeting, empty details, no quote. */
  function Suppressed(): (m: SubScore)
    ensures m.score == 0 && m.summary == Text(Greeting) && m.details == NoDetails
  {
    SubScore(0, Text(Greeting), NoDetails, None)
  }

  /** On a valid clock the blackout covers exactly the last nine hours of Friday and all of Saturday. */
  lemma BlackoutWindow(day: int, hour: int)
    requires 0 <= day <= 6 && 0 <= hour <= 23
    ensures IsSabbath(day, hour) <==> 24 * day + hour >= 24 * 5 + 15
  {
  }
}
