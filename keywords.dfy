/**
 * Counting literal keyword occurrences in a news text, as
 * `text.match(new RegExp(keyword, 'gi'))` does: the matches are found left to
 * right and do not overlap; no match gives a count of 0. The keywords are
 * Hebrew words without regular-expression metacharacters, for which the
 * case-insensitive flag changes nothing.
 */
module Keywords {

  /** `pat` occurs in `text` starting at index `i`. */
  predicate OccursAt(text: string, pat: string, i: nat)
  {
    i + |pat| <= |text| && text[i..i + |pat|] == pat
  }

  ghost predicate Contains(text: string, pat: string)
  {
    exists i: nat :: OccursAt(text, pat, i)
  }

  /**
   * The number of matches of the global search for `pat`. The matches are
   * found left to right and do not overlap, so together they are no longer
   * than the text; an empty pattern matches once at every position.
   */
  function Occurrences(text: string, pat: string): (n: nat)
    ensures n * |pat| <= |text|
    decreases |text|
  {
    if pat == [] then |text| + 1
    else if |text| < |pat| then 0
    else if text[..|pat|] == pat then
      var rest := Occurrences(text[|pat|..], pat);
      assert (1 + rest) * |pat| == |pat| + rest * |pat|;
      1 + rest
    else Occurrences(text[1..], pat)
  }

  lemma ShiftedOccurrence(text: string, pat: string, d: nat, i: nat)
    requires d <= |text|
    requires OccursAt(text[d..], pat, i)
    ensures OccursAt(text, pat, i + d)
  {
    assert text[d..][i..i + |pat|] == text[i + d..i + d + |pat|];
  }

  lemma {:induction false} OccursOnlyPastStart(text: string, pat: string, i: nat)
    requires pat != [] && |text| >= |pat| && text[..|pat|] != pat
    requires OccursAt(text, pat, i)
    ensures i >= 1 && OccursAt(text[1..], pat, i - 1)
  {
    assert text[1..][i - 1..i - 1 + |pat|] == text[i..i + |pat|];
  }

  /** The search finds no match exactly when the pattern does not occur. */
  lemma {:induction false} OccurrencesZeroIff(text: string, pat: string)
    ensures Occurrences(text, pat) == 0 <==> !Contains(text, pat)
    decreases |text|
  {
    if pat == [] {
      assert OccursAt(text, pat, 0);
    } else if |text| < |pat| {
    } else if text[..|pat|] == pat {
      assert OccursAt(text, pat, 0);
    } else {
      OccurrencesZeroIff(text[1..], pat);
      if Contains(text, pat) {
        var i: nat :| OccursAt(text, pat, i);
        OccursOnlyPastStart(text, pat, i);
      }
      if Contains(text[1..], pat) {
        var i: nat :| OccursAt(text[1..], pat, i);
        ShiftedOccurrence(text, pat, 1, i);
      }
    }
  }

  /** The sum of `matches(k)` over the keywords `ks`, added in list order. */
  function Total(ks: seq<string>, matches: string -> nat): nat
    decreases |ks|
  {
    if ks == [] then 0 else Total(ks[..|ks| - 1], matches) + matches(ks[|ks| - 1])
  }

  /** The total count over a keyword list: the sum of the per-keyword counts. */
  function KeywordCount(text: string, keywords: seq<string>): nat
  {
    Total(keywords, k => Occurrences(text, k))
  }

  /** The total is zero exactly when no keyword of the list occurs in the text. */
  lemma {:induction false} KeywordCountZeroIff(text: string, keywords: seq<string>)
    ensures KeywordCount(text, keywords) == 0 <==> forall k :: k in keywords ==> !Contains(text, k)
    decreases |keywords|
  {
    if keywords != [] {
      var last := |keywords| - 1;
      var front := keywords[..last];
      assert forall k :: k in keywords <==> k in front || k == keywords[last];
      KeywordCountZeroIff(text, front);
      OccurrencesZeroIff(text, keywords[last]);
    }
  }

  /** The `forEach` loop that adds up the match counts keyword by keyword. */
  method CountKeywords(text: string, keywords: seq<string>) returns (count: nat)
    ensures count == KeywordCount(text, keywords)
  {
    count := 0;
    var i := 0;
    while i < |keywords|
      invariant 0 <= i <= |keywords|
      invariant count == KeywordCount(text, keywords[..i])
    {
      count := count + Occurrences(text, keywords[i]);
      assert keywords[..i + 1][..i] == keywords[..i];
      i := i + 1;
    }
    assert keywords[..i] == keywords;
  }
}
