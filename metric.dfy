/** The result every evaluator returns: `{ score, summary, details, quote }`. */
module Metric {
  import opened Wrappers
  import opened Market

  /** One economic indicator: the instrument, its text prefix, and the change shown after it as a percentage. */
  datatype Indicator = Indicator(instrument: Instrument, prefix: string, change: Change)

  /**
   * A summary is either a fixed label, or the texts of the indicators that
   * fired joined by `" | "`.
   */
  datatype Summary = Text(text: string) | Joined(indicators: seq<Indicator>)

  /** The `details` object of each evaluator; `NoDetails` is the empty object `{}`. */
  datatype Details =
    | NoDetails
    | EconomyDetails(results: Results)
    | ChutzpahDetails(count: nat, average: nat, percent: real)
    | DecayDetails(articles: nat, formula: string)
    | DistractionDetails(wiki: nat, news: nat, total: nat, average: nat, percent: real)

  /** A category result; the blackout results carry no quote. */
  datatype SubScore = SubScore(score: nat, summary: Summary, details: Details, quote: Option<string>)

  /** `Math.min` on scores. */
  function Min(a: nat, b: nat): (m: nat)
    ensures m <= a && m <= b && (m == a || m == b)
  {
    if a <= b then a else b
  }
}
