/**
 * The request handler's scoring: the blackout check first, then the four
 * evaluators, then the total, its display percentage and the timestamps.
 * Time is given as the local day of week, the local hour and the current
 * instant in milliseconds.
 */
module Endpoint {
  import opened Wrappers
  import opened Market
  import opened Metric
  import Economy
  import Chutzpah
  import WisdomDecay
  import Distraction
  import Blackout

  /** The four categories of the response, under their response keys. */
  datatype Metrics = Metrics(poverty: SubScore, chutzpah: SubScore, wisdomDecay: SubScore, distraction: SubScore)

  /** The response body; `status` only in the blackout, `nextUpdate` only outside it. */
  datatype Report = Report(totalScore: int, status: Option<string>, timestamp: int, nextUpdate: Option<int>, metrics: Metrics)

  /** Everything the four evaluators fetch, each `None` where its fetch failed. */
  datatype Signals = Signals(
    quotes: Quotes,
    incivilityText: Option<string>,
    coMentions: Option<string -> nat>,
    wikiViews: Option<nat>,
    newsText: Option<string>)

  /** Ten minutes, in milliseconds. */
  const UpdateInterval: int := 10 * 60 * 1000

  /** `Math.round` on a non-negative number: halves round up. */
  function Round(x: real): int
  {
    (x + 0.5).Floor
  }

  /** `Math.min((total / 100) * 100, 99.9)`. */
  function PercentScore(total: nat): real
  {
    var p := (total as real / 100.0) * 100.0;
    if p <= 99.9 then p else 99.9
  }

  /** The displayed total: the sum itself up to 99, and 100 from there on (99.9 rounds up). */
  function DisplayedScore(total: nat): (d: int)
    ensures 0 <= d <= 100
    ensures total <= 99 ==> d == total
    ensures total >= 100 ==> d == 100
  {
    Round(PercentScore(total))
  }

  function Sum(m: Metrics): nat
  {
    m.poverty.score + m.chutzpah.score + m.wisdomDecay.score + m.distraction.score
  }

  /** The blackout response: no evaluator result is involved. */
  function SabbathReport(now: int): Report
  {
    var s := Blackout.Suppressed();
    Report(0, Some(Blackout.Greeting), now, None, Metrics(s, s, s, s))
  }

  /** The regular response for the four results. */
  function Combine(m: Metrics, now: int): Report
  {
    Report(DisplayedScore(Sum(m)), None, now, Some(now + UpdateInterval), m)
  }

  function Evaluate(s: Signals): Metrics
  {
    Metrics(
      Economy.EconomyMetric(ResultsOf(s.quotes)),
      Chutzpah.ChutzpahMetric(s.incivilityText),
      WisdomDecay.DecayMetric(s.coMentions),
      Distraction.DistractionMetric(s.wikiViews, s.newsText))
  }

  function Respond(day: int, hour: int, now: int, s: Signals): Report
  {
    if Blackout.IsSabbath(day, hour) then SabbathReport(now) else Combine(Evaluate(s), now)
  }

  /** The handler: the evaluators run (in sequence here) only outside the blackout. */
  method Handler(day: int, hour: int, now: int, s: Signals) returns (report: Report)
    ensures report == Respond(day, hour, now, s)
  {
    if Blackout.IsSabbath(day, hour) {
      return SabbathReport(now);
    }
    var poverty := Economy.GetEconomyMetric(s.quotes);
    var chutzpah := Chutzpah.GetChutzpahMetric(s.incivilityText);
    var wisdomDecay := WisdomDecay.GetWisdomDecayMetric(s.coMentions);
    var distraction := Distraction.DistractionMetric(s.wikiViews, s.newsText);
    var metrics := Metrics(poverty, chutzpah, wisdomDecay, distraction);
    var totalScore := poverty.score + chutzpah.score + wisdomDecay.score + distraction.score;
    var percentScore := PercentScore(totalScore);
    report := Report(Round(percentScore), None, now, Some(now + UpdateInterval), metrics);
  }

  /**
   * During the blackout every category scores 0 with the same summary, the
   * total is 0, and the response is the same whatever the fetches would return.
   */
  lemma SabbathSuppresses(day: int, hour: int, now: int, s1: Signals, s2: Signals)
    requires Blackout.IsSabbath(day, hour)
    ensures Respond(day, hour, now, s1) == Respond(day, hour, now, s2)
    ensures var r := Respond(day, hour, now, s1);
      && r.totalScore == 0 && r.status == Some(Blackout.Greeting)
      && r.metrics.poverty.score == r.metrics.chutzpah.score == r.metrics.wisdomDecay.score == r.metrics.distraction.score == 0
      && r.metrics.poverty.summary == r.metrics.chutzpah.summary == r.metrics.wisdomDecay.summary
         == r.metrics.distraction.summary == Text(Blackout.Greeting)
  {
  }

  /** No category can exceed its ceiling: 23, 20, 25 and 20, so at most 88 in all. */
  lemma ScoreCeilings(s: Signals)
    ensures Evaluate(s).poverty.score <= 23
    ensures Evaluate(s).chutzpah.score <= 20
    ensures Evaluate(s).wisdomDecay.score <= 25
    ensures Evaluate(s).distraction.score <= 20
    ensures Sum(Evaluate(s)) <= 88
  {
    Economy.ScoreIsRawScore(ResultsOf(s.quotes));
    Chutzpah.ScoreValues(s.incivilityText);
    Distraction.ScoreValues(s.wikiViews, s.newsText);
  }

  /**
   * Outside the blackout the displayed total is exactly the sum of the four
   * scores (the 99.9 clamp never binds), and the next update is ten minutes on.
   */
  lemma RegularReport(day: int, hour: int, now: int, s: Signals)
    requires !Blackout.IsSabbath(day, hour)
    ensures var r := Respond(day, hour, now, s);
      && r.totalScore == Sum(r.metrics) && 0 <= r.totalScore <= 88
      && r.metrics == Evaluate(s)
      && r.nextUpdate == Some(now + 600000) && r.status.None?
  {
    ScoreCeilings(s);
  }
}
