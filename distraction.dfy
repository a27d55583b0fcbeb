/**
 * The public-distraction evaluator (`getDistractionMetric`): yesterday's
 * encyclopedia page views plus today's news mentions, as a percentage of a
 * fixed daily average of 90, graded with an inverted table in which LESS
 * interest gives a HIGHER score.
 */
module Distraction {
  import opened Wrappers
  import opened Metric
  import opened Keywords
  import opened Tiers

  const DefaultWiki: nat := 80
  const DefaultNews: nat := 10
  const DailyAverage: nat := 90
  const Topic: string := "משיח"
  const DistractionQuote: string := "אין בן דוד בא אלא בהיסח הדעת"

  /** The tier table: percentages below 40, 60, 80 and 100, then the fallback. */
  const Bounds: seq<real> := [40.0, 60.0, 80.0, 100.0]
  const Scores: seq<nat> := [20, 14, 8, 4, 0]
  const Labels: seq<string> := ["היסח דעת מוחלט", "היסח דעת חמור", "עניין נמוך", "כמעט ממוצע", "עניין רגיל"]

  /** Page views: the fetched count, or the default when the fetch failed or returned no item. */
  function WikiViews(fetched: Option<nat>): nat
  {
    if fetched.Some? then fetched.value else DefaultWiki
  }

  /** News mentions: the matches of the topic in the news text, or the default when the fetch failed. */
  function NewsMentions(text: Option<string>): nat
  {
    if text.Some? then Occurrences(text.value, Topic) else DefaultNews
  }

  /** `(total / average) * 100`. */
  function Percent(total: nat): real
  {
    (total as real / DailyAverage as real) * 100.0
  }

  /** The result for the two counts; the thresholds restated on their sum. */
  function CountsMetric(wiki: nat, news: nat): (m: SubScore)
    ensures m.score == 20 <==> wiki + news < 36
    ensures m.score == 14 <==> 36 <= wiki + news < 54
    ensures m.score == 8 <==> 54 <= wiki + news < 72
    ensures m.score == 4 <==> 72 <= wiki + news < 90
    ensures m.score == 0 <==> 90 <= wiki + news
    ensures m.details == DistractionDetails(wiki, news, wiki + news, 90, (wiki + news) as real * 10.0 / 9.0)
  {
    var total := wiki + news;
    var percent := Percent(total);
    var i := FirstHit(Bounds, Lt, percent);
    SubScore(Min(Scores[i], 25), Text(Labels[i]), DistractionDetails(wiki, news, total, DailyAverage, percent), Some(DistractionQuote))
  }

  /** The evaluator's result; `wiki` is `None` when that fetch failed or had no item, `news` when its fetch failed. */
  function DistractionMetric(wiki: Option<nat>, news: Option<string>): (m: SubScore)
    ensures m.details.DistractionDetails?
    ensures wiki.None? ==> m.details.wiki == 80
    ensures wiki.Some? ==> m.details.wiki == wiki.value
    ensures news.None? ==> m.details.news == 10
    ensures news.Some? ==> m.details.news == Occurrences(news.value, Topic)
    ensures m.details.total == m.details.wiki + m.details.news
    ensures m.score == 0 <==> m.details.total >= 90
  {
    CountsMetric(WikiViews(wiki), NewsMentions(news))
  }

  /** The inversion: more public interest never raises the score. */
  lemma ScoreAntitone(w1: nat, n1: nat, w2: nat, n2: nat)
    requires w1 + n1 <= w2 + n2
    ensures CountsMetric(w2, n2).score <= CountsMetric(w1, n1).score
  {
    FirstHitMonotone(Bounds, Lt, Percent(w2 + n2), Percent(w1 + n1));
    assert NonIncreasing(Scores);
  }

  /** When both fetches fail the defaults add up to exactly the average: 100 percent, score 0. */
  lemma BothFetchesFailScoreZero()
    ensures DistractionMetric(None, None).score == 0
    ensures DistractionMetric(None, None).summary == Text("עניין רגיל")
    ensures DistractionMetric(None, None).details.percent == 100.0
  {
  }

  /** The score is one of the five tier values. */
  lemma ScoreValues(wiki: Option<nat>, news: Option<string>)
    ensures DistractionMetric(wiki, news).score in {0, 4, 8, 14, 20}
  {
  }
}
