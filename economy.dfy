/**
 * The economic-stress evaluator (`getEconomyMetric`): each instrument whose
 * fetch succeeded is tried against its own tiers, the points of the tier it
 * reaches are added up, its indicator is appended to the summary, and the
 * sum is capped at 25.
 */
module Economy {
  import opened Wrappers
  import opened Market
  import opened Metric

  const Stable: string := "יציבות כלכלית"
  const EconomyQuote: string := "עד שתכלה פרוטה מן הכיס"
  const Ceiling: nat := 25

  /** The points an instrument adds and the indicator it pushes. */
  datatype Tier = Tier(points: nat, indicator: Indicator)

  /**
   * The tier an instrument's reading reaches, the first match of its
   * `if`/`else if` pair; a failed fetch reaches none.
   */
  function TierOf(i: Instrument, r: Option<Reading>): (t: Option<Tier>)
    ensures r.None? ==> t.None?
    ensures t.Some? ==> r.Some? && t.value.points > 0 && t.value.points <= MaxPoints(i)
    ensures t.Some? ==> t.value.indicator.instrument == i && t.value.indicator.change == r.value.changePercent
  {
    match i
    case Sp500 => SpTier(r)
    case UsdIls => UsdTier(r)
    case Bitcoin => BtcTier(r)
    case Gold => GoldTier(r)
    case Ta35 => TaTier(r)
  }

  /** The S&P 500 block: 6 points below -4 percent, else 3 below -2 percent. */
  function SpTier(r: Option<Reading>): Option<Tier>
  {
    if r.Some? && Below(r.value.changePercent, -4.0) then Some(Tier(6, Indicator(Sp500, "S&P", r.value.changePercent)))
    else if r.Some? && Below(r.value.changePercent, -2.0) then Some(Tier(3, Indicator(Sp500, "S&P", r.value.changePercent)))
    else None
  }

  /** The dollar-shekel block: 5 points above 3 percent, else 2 above 1.5 percent. */
  function UsdTier(r: Option<Reading>): Option<Tier>
  {
    if r.Some? && Above(r.value.changePercent, 3.0) then Some(Tier(5, Indicator(UsdIls, "$ חזק", r.value.changePercent)))
    else if r.Some? && Above(r.value.changePercent, 1.5) then Some(Tier(2, Indicator(UsdIls, "$ עולה", r.value.changePercent)))
    else None
  }

  /** The Bitcoin block: 4 points above 10 percent. */
  function BtcTier(r: Option<Reading>): Option<Tier>
  {
    if r.Some? && Above(r.value.changePercent, 10.0) then Some(Tier(4, Indicator(Bitcoin, "BTC", r.value.changePercent))) else None
  }

  /** The gold block: 3 points above 4 percent. */
  function GoldTier(r: Option<Reading>): Option<Tier>
  {
    if r.Some? && Above(r.value.changePercent, 4.0) then Some(Tier(3, Indicator(Gold, "זהב", r.value.changePercent))) else None
  }

  /** The TA-35 block: 5 points below -3 percent. */
  function TaTier(r: Option<Reading>): Option<Tier>
  {
    if r.Some? && Below(r.value.changePercent, -3.0) then Some(Tier(5, Indicator(Ta35, "TA-35", r.value.changePercent))) else None
  }

  /** The most an instrument can add: its top tier. */
  function MaxPoints(i: Instrument): nat
  {
    match i
    case Sp500 => 6
    case UsdIls => 5
    case Bitcoin => 4
    case Gold => 3
    case Ta35 => 5
  }

  /** The points the instrument's block adds to `score`. */
  function Gain(t: Option<Tier>): nat
  {
    if t.Some? then t.value.points else 0
  }

  /** The indicators the instrument's block pushes. */
  function Pushed(t: Option<Tier>): seq<Indicator>
  {
    if t.Some? then [t.value.indicator] else []
  }

  /** The uncapped sum of the five blocks. */
  function RawScore(r: Results): nat
  {
    Gain(SpTier(r.sp500)) + Gain(UsdTier(r.usdils)) + Gain(BtcTier(r.bitcoin))
    + Gain(GoldTier(r.gold)) + Gain(TaTier(r.ta35))
  }

  /** The indicators pushed by the five blocks, in block order. */
  function Fired(r: Results): seq<Indicator>
  {
    Pushed(SpTier(r.sp500)) + Pushed(UsdTier(r.usdils)) + Pushed(BtcTier(r.bitcoin))
    + Pushed(GoldTier(r.gold)) + Pushed(TaTier(r.ta35))
  }

  /** The evaluator's result for a `results` record. */
  function EconomyMetric(r: Results): SubScore
  {
    SubScore(
      Min(RawScore(r), Ceiling),
      if |Fired(r)| > 0 then Joined(Fired(r)) else Text(Stable),
      EconomyDetails(r),
      Some(EconomyQuote))
  }

  /** The clamp at 25 never binds: the five top tiers add up to 23. */
  lemma ScoreIsRawScore(r: Results)
    ensures RawScore(r) <= 23
    ensures EconomyMetric(r).score == RawScore(r)
  {
  }

  /** The summary is the stable label exactly when no block fired, which is exactly when the score is 0. */
  lemma StableExactlyWhenQuiet(r: Results)
    ensures EconomyMetric(r).summary == Text(Stable) <==> Fired(r) == []
    ensures EconomyMetric(r).score == 0 <==> Fired(r) == []
    ensures Fired(r) != [] ==> EconomyMetric(r).summary == Joined(Fired(r))
  {
  }

  /** The indicators are listed in strictly increasing instrument order. */
  predicate InOrder(inds: seq<Indicator>)
  {
    forall j, k :: 0 <= j < k < |inds| ==> inds[j].instrument.Position() < inds[k].instrument.Position()
  }

  /** Every indicator belongs to an instrument placed before position `p`. */
  predicate AllBefore(inds: seq<Indicator>, p: nat)
  {
    forall j :: 0 <= j < |inds| ==> inds[j].instrument.Position() < p
  }

  /** A block pushes at most one indicator, and only for its own instrument. */
  lemma PushedOwn(i: Instrument, x: Option<Reading>)
    ensures |Pushed(TierOf(i, x))| <= 1
    ensures forall j :: 0 <= j < |Pushed(TierOf(i, x))| ==> Pushed(TierOf(i, x))[j].instrument == i
  {
  }

  /** Appending the next instrument's block keeps the indicators in order. */
  lemma AppendInOrder(a: seq<Indicator>, b: seq<Indicator>, i: Instrument)
    requires InOrder(a) && AllBefore(a, i.Position())
    requires |b| <= 1 && forall j :: 0 <= j < |b| ==> b[j].instrument == i
    ensures InOrder(a + b) && AllBefore(a + b, i.Position() + 1)
  {
  }

  /** Five blocks, each pushing at most one indicator for its own instrument, push them in instrument order. */
  lemma FiveInOrder(a: seq<Indicator>, b: seq<Indicator>, c: seq<Indicator>, d: seq<Indicator>, e: seq<Indicator>)
    requires |a| <= 1 && forall j :: 0 <= j < |a| ==> a[j].instrument == Sp500
    requires |b| <= 1 && forall j :: 0 <= j < |b| ==> b[j].instrument == UsdIls
    requires |c| <= 1 && forall j :: 0 <= j < |c| ==> c[j].instrument == Bitcoin
    requires |d| <= 1 && forall j :: 0 <= j < |d| ==> d[j].instrument == Gold
    requires |e| <= 1 && forall j :: 0 <= j < |e| ==> e[j].instrument == Ta35
    ensures |a + b + c + d + e| <= 5
    ensures InOrder(a + b + c + d + e)
  {
    AppendInOrder([], a, Sp500);
    assert [] + a == a;
    AppendInOrder(a, b, UsdIls);
    AppendInOrder(a + b, c, Bitcoin);
    AppendInOrder(a + b + c, d, Gold);
    AppendInOrder(a + b + c + d, e, Ta35);
  }

  /** At most one indicator per instrument, listed in instrument order. */
  lemma FiredInInstrumentOrder(r: Results)
    ensures |Fired(r)| <= 5
    ensures InOrder(Fired(r))
  {
    PushedOwn(Sp500, r.sp500);
    PushedOwn(UsdIls, r.usdils);
    PushedOwn(Bitcoin, r.bitcoin);
    PushedOwn(Gold, r.gold);
    PushedOwn(Ta35, r.ta35);
    FiveInOrder(Pushed(TierOf(Sp500, r.sp500)), Pushed(TierOf(UsdIls, r.usdils)), Pushed(TierOf(Bitcoin, r.bitcoin)),
      Pushed(TierOf(Gold, r.gold)), Pushed(TierOf(Ta35, r.ta35)));
  }

  /**
   * Fault isolation: an instrument whose fetch failed pushes no indicator,
   * and a reading for it would change the score by its own points only.
   */
  lemma FailedFetchContributesNothing(r: Results, i: Instrument, x: Option<Reading>)
    requires r.For(i).None?
    ensures forall ind :: ind in Fired(r) ==> ind.instrument != i
    ensures RawScore(r.With(i, x)) == RawScore(r) + Gain(TierOf(i, x))
  {
  }

  /**
   * A lower change never scores less on a falling instrument (S&P 500,
   * TA-35) and never more on a rising one (USD/ILS, Bitcoin, gold).
   */
  lemma TiersMonotone(i: Instrument, a: Reading, b: Reading)
    requires AtMost(a.changePercent, b.changePercent)
    ensures i in {Sp500, Ta35} ==> Gain(TierOf(i, Some(b))) <= Gain(TierOf(i, Some(a)))
    ensures i in {UsdIls, Bitcoin, Gold} ==> Gain(TierOf(i, Some(a))) <= Gain(TierOf(i, Some(b)))
  {
    var ca, cb := a.changePercent, b.changePercent;
    ComparisonsMonotone(ca, cb, -4.0);
    ComparisonsMonotone(ca, cb, -2.0);
    ComparisonsMonotone(ca, cb, -3.0);
    ComparisonsMonotone(ca, cb, 1.5);
    ComparisonsMonotone(ca, cb, 3.0);
    ComparisonsMonotone(ca, cb, 4.0);
    ComparisonsMonotone(ca, cb, 10.0);
  }

  /**
   * The monthly average is not checked against zero: a quote with a positive
   * price and no present close reads as an infinite rise, which reaches the
   * top tier of every rising instrument and no tier of a falling one.
   */
  lemma EmptyWindowReadsAsSurge(q: Quote)
    requires q.price > 0.0
    requires Average.Kept(q.closes) == []
    ensures TierOf(UsdIls, Some(ReadingOf(q))) == Some(Tier(5, Indicator(UsdIls, "$ חזק", PlusInfinity)))
    ensures TierOf(Bitcoin, Some(ReadingOf(q))) == Some(Tier(4, Indicator(Bitcoin, "BTC", PlusInfinity)))
    ensures TierOf(Gold, Some(ReadingOf(q))) == Some(Tier(3, Indicator(Gold, "זהב", PlusInfinity)))
    ensures TierOf(Sp500, Some(ReadingOf(q))).None? && TierOf(Ta35, Some(ReadingOf(q))).None?
  {
  }

  /** The five fetch blocks fill the `results` record, each only when its fetch succeeded. */
  method CollectResults(q: Quotes) returns (results: Results)
    ensures results == ResultsOf(q)
  {
    results := Results(None, None, None, None, None);
    if q.sp500.Some? { results := results.(sp500 := Some(ReadingOf(q.sp500.value))); }
    if q.usdils.Some? { results := results.(usdils := Some(ReadingOf(q.usdils.value))); }
    if q.bitcoin.Some? { results := results.(bitcoin := Some(ReadingOf(q.bitcoin.value))); }
    if q.gold.Some? { results := results.(gold := Some(ReadingOf(q.gold.value))); }
    if q.ta35.Some? { results := results.(ta35 := Some(ReadingOf(q.ta35.value))); }
  }

  /** The scoring chain: each block adds its tier's points and pushes its indicator. */
  method ScoreResults(results: Results) returns (m: SubScore)
    ensures m == EconomyMetric(results)
  {
    var score: nat := 0;
    var indicators: seq<Indicator> := [];

    ghost var sp := SpTier(results.sp500);
    if results.sp500.Some? && Below(results.sp500.value.changePercent, -4.0) {
      score := score + 6;
      indicators := indicators + [Indicator(Sp500, "S&P", results.sp500.value.changePercent)];
    } else if results.sp500.Some? && Below(results.sp500.value.changePercent, -2.0) {
      score := score + 3;
      indicators := indicators + [Indicator(Sp500, "S&P", results.sp500.value.changePercent)];
    }
    assert score == Gain(sp) && indicators == Pushed(sp);

    ghost var usd := UsdTier(results.usdils);
    if results.usdils.Some? && Above(results.usdils.value.changePercent, 3.0) {
      score := score + 5;
      indicators := indicators + [Indicator(UsdIls, "$ חזק", results.usdils.value.changePercent)];
    } else if results.usdils.Some? && Above(results.usdils.value.changePercent, 1.5) {
      score := score + 2;
      indicators := indicators + [Indicator(UsdIls, "$ עולה", results.usdils.value.changePercent)];
    }

    assert score == Gain(sp) + Gain(usd) && indicators == Pushed(sp) + Pushed(usd);

    ghost var btc := BtcTier(results.bitcoin);
    if results.bitcoin.Some? && Above(results.bitcoin.value.changePercent, 10.0) {
      score := score + 4;
      indicators := indicators + [Indicator(Bitcoin, "BTC", results.bitcoin.value.changePercent)];
    }

    assert score == Gain(sp) + Gain(usd) + Gain(btc);
    assert indicators == Pushed(sp) + Pushed(usd) + Pushed(btc);

    ghost var gold := GoldTier(results.gold);
    if results.gold.Some? && Above(results.gold.value.changePercent, 4.0) {
      score := score + 3;
      indicators := indicators + [Indicator(Gold, "זהב", results.gold.value.changePercent)];
    }

    assert score == Gain(sp) + Gain(usd) + Gain(btc) + Gain(gold);
    assert indicators == Pushed(sp) + Pushed(usd) + Pushed(btc) + Pushed(gold);

    ghost var ta := TaTier(results.ta35);
    if results.ta35.Some? && Below(results.ta35.value.changePercent, -3.0) {
      score := score + 5;
      indicators := indicators + [Indicator(Ta35, "TA-35", results.ta35.value.changePercent)];
    }
    assert score == Gain(sp) + Gain(usd) + Gain(btc) + Gain(gold) + Gain(ta);
    assert indicators == Pushed(sp) + Pushed(usd) + Pushed(btc) + Pushed(gold) + Pushed(ta);
    assert score == RawScore(results);
    assert indicators == Fired(results);

    m := SubScore(
      Min(score, Ceiling),
      if |indicators| > 0 then Joined(indicators) else Text(Stable),
      EconomyDetails(results),
      Some(EconomyQuote));
    assert m == EconomyMetric(results);
  }

  /** `getEconomyMetric` once the five fetches have settled. */
  method GetEconomyMetric(q: Quotes) returns (m: SubScore)
    ensures m == EconomyMetric(ResultsOf(q))
  {
    var results := CollectResults(q);
    m := ScoreResults(results);
  }
}
