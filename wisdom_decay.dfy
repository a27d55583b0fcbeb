/**
 * The discourse-decay evaluator (`getWisdomDecayMetric`): for each negative
 * keyword, the number of matches of the pattern pairing it with the
 * community's name, in either order; one point per match, capped at 25, and
 * a status label graded on the score.
 */
module WisdomDecay {
  import opened Wrappers
  import opened Metric
  import opened Tiers
  import opened Keywords

  const Terms: seq<string> := ["ביקורת", "מחאה", "סכסוך", "קיטוב", "עימות", "משבר"]
  const Cap: nat := 25
  const Formula: string := "כל כתבה = 1 נקודה"
  const DecayQuote: string := "חכמת חכמים תסרח"
  const ErrorLabel: string := "שגיאה"

  /** The result when the news fetch failed. */
  const Fallback: SubScore := SubScore(0, Text(ErrorLabel), NoDetails, Some(DecayQuote))

  /** The status table: scores of at least 18, 12, 7 and 3, then the fallback. */
  const Bounds: seq<real> := [18.0, 12.0, 7.0, 3.0]
  const Labels: seq<string> := ["ביקורת חריפה מאוד", "ביקורת חריפה", "ביקורת משמעותית", "ביקורת קלה", "שקט יחסי"]

  /** The position in `Labels` of the status for a score: 0 is the most severe. */
  function Severity(score: nat): (i: nat)
    ensures i < |Labels|
    ensures i == 0 <==> score >= 18
    ensures i == 1 <==> 12 <= score < 18
    ensures i == 2 <==> 7 <= score < 12
    ensures i == 3 <==> 3 <= score < 7
    ensures i == 4 <==> score < 3
  {
    FirstHit(Bounds, Ge, score as real)
  }

  function Status(score: nat): string
  {
    Labels[Severity(score)]
  }

  /** The result for a number of matches. */
  function CountMetric(count: nat): (m: SubScore)
    ensures m.score <= Cap
    ensures count <= Cap ==> m.score == count
    ensures count >= Cap ==> m.score == Cap
    ensures m.summary == Text(Status(m.score))
    ensures m.details == DecayDetails(count, Formula)
  {
    var score := Min(count, Cap);
    SubScore(score, Text(Status(score)), DecayDetails(count, Formula), Some(DecayQuote))
  }

  /**
   * The evaluator's result. `coMentions` is `None` when the news fetch
   * failed; otherwise `coMentions(k)` is the number of matches of the
   * pattern for keyword `k` in the fetched text.
   */
  function DecayMetric(coMentions: Option<string -> nat>): SubScore
  {
    if coMentions.None? then Fallback
    else CountMetric(Total(Terms, coMentions.value))
  }

  method GetWisdomDecayMetric(coMentions: Option<string -> nat>) returns (m: SubScore)
    ensures m == DecayMetric(coMentions)
  {
    if coMentions.None? {
      return Fallback;
    }
    var matches := coMentions.value;
    var count := 0;
    var i := 0;
    while i < |Terms|
      invariant 0 <= i <= |Terms|
      invariant count == Total(Terms[..i], matches)
    {
      count := count + matches(Terms[i]);
      assert Terms[..i + 1][..i] == Terms[..i];
      i := i + 1;
    }
    assert Terms[..i] == Terms;
    m := CountMetric(count);
  }

  /** A higher score never gets a milder status. */
  lemma StatusMonotone(s1: nat, s2: nat)
    requires s1 <= s2
    ensures Severity(s2) <= Severity(s1)
  {
    FirstHitMonotone(Bounds, Ge, s1 as real, s2 as real);
  }

  /** Beyond the cap, more matches change nothing but the reported article count. */
  lemma CapSaturates(c1: nat, c2: nat)
    requires Cap <= c1 && Cap <= c2
    ensures CountMetric(c1).score == CountMetric(c2).score
    ensures CountMetric(c1).summary == CountMetric(c2).summary
  {
  }
}
