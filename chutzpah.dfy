/**
 * The incivility evaluator (`getChutzpahMetric`): count the crime and
 * violence keywords in the news text, express the count as a percentage of
 * a fixed average of 20 reports, and grade it with a descending tier table.
 */
module Chutzpah {
  import opened Wrappers
  import opened Metric
  import opened Keywords
  import opened Tiers

  const Terms: seq<string> := ["אלימות", "תקיפה", "שוד", "גניבה", "רצח", "פשע", "נעצר"]
  const AverageReports: nat := 20
  const ChutzpahQuote: string := "חוצפה יסגא"
  const ErrorLabel: string := "שגיאה"

  /** The result when the news fetch failed. */
  const Fallback: SubScore := SubScore(0, Text(ErrorLabel), NoDetails, Some(ChutzpahQuote))

  /** The tier table: percentages above 150, 120 and 100, then the fallback. */
  const Bounds: seq<real> := [150.0, 120.0, 100.0]
  const Scores: seq<nat> := [20, 12, 6, 0]
  const Labels: seq<string> := ["רמה חריגה", "רמה גבוהה", "מעל ממוצע", "רמה רגילה"]

  /** `(count / average) * 100`. */
  function Percent(count: nat): real
  {
    (count as real / AverageReports as real) * 100.0
  }

  /** The result for a keyword count; the thresholds restated on the count itself. */
  function CountMetric(count: nat): (m: SubScore)
    ensures m.score == 20 <==> count > 30
    ensures m.score == 12 <==> 24 < count <= 30
    ensures m.score == 6 <==> 20 < count <= 24
    ensures m.score == 0 <==> count <= 20
    ensures m.score == 0 ==> m.summary == Text("רמה רגילה")
    ensures m.details == ChutzpahDetails(count, 20, count as real * 5.0)
  {
    var percent := Percent(count);
    var i := FirstHit(Bounds, Gt, percent);
    SubScore(Min(Scores[i], 25), Text(Labels[i]), ChutzpahDetails(count, AverageReports, percent), Some(ChutzpahQuote))
  }

  /** The evaluator's result: the error fallback when the news fetch failed. */
  function ChutzpahMetric(text: Option<string>): SubScore
  {
    if text.None? then Fallback
    else CountMetric(KeywordCount(text.value, Terms))
  }

  method GetChutzpahMetric(text: Option<string>) returns (m: SubScore)
    ensures m == ChutzpahMetric(text)
  {
    if text.None? {
      return Fallback;
    }
    var count := CountKeywords(text.value, Terms);
    m := CountMetric(count);
  }

  /** More reports never lower the score. */
  lemma ScoreMonotone(c1: nat, c2: nat)
    requires c1 <= c2
    ensures CountMetric(c1).score <= CountMetric(c2).score
  {
    FirstHitMonotone(Bounds, Gt, Percent(c1), Percent(c2));
    assert NonIncreasing(Scores);
  }

  /** A text in which no keyword occurs scores 0 with the "normal" label. */
  lemma QuietTextScoresZero(text: string)
    requires forall k :: k in Terms ==> !Contains(text, k)
    ensures ChutzpahMetric(Some(text)).score == 0
    ensures ChutzpahMetric(Some(text)).summary == Text("רמה רגילה")
  {
    KeywordCountZeroIff(text, Terms);
  }

  /** The score is one of the four tier values. */
  lemma ScoreValues(text: Option<string>)
    ensures ChutzpahMetric(text).score in {0, 6, 12, 20}
  {
  }
}
