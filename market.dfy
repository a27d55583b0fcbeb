/**
 * The five market instruments the economic evaluator fetches, the quote each
 * fetch yields, and the reading (`current`, `monthAvg`, `changePercent`) the
 * evaluator stores in its `results` record.
 */
module Market {
  import opened Wrappers
  import Average

  /** The instruments, in the order of the `results` record and of the summary. */
  datatype Instrument = Sp500 | UsdIls | Bitcoin | Gold | Ta35
  {
    function Position(): (p: nat)
      ensures p < 5
    {
      match this
      case Sp500 => 0
      case UsdIls => 1
      case Bitcoin => 2
      case Gold => 3
      case Ta35 => 4
    }
  }

  /**
   * A percentage change as a JavaScript number: finite, or the infinity or
   * NaN that a division by a zero monthly average produces.
   */
  datatype Change = Finite(pct: real) | PlusInfinity | MinusInfinity | NotANumber

  /**
   * `((current - avg) / avg) * 100`. The average is not checked against zero,
   * so a zero average gives an infinity of the sign of `current`, or NaN
   * when `current` is zero as well.
   */
  function ChangePercent(current: real, avg: real): (c: Change)
    ensures avg != 0.0 ==> c.Finite? && c.pct * avg == (current - avg) * 100.0
    ensures avg == 0.0 ==> !c.Finite?
    ensures avg == 0.0 ==> (c.PlusInfinity? <==> current > 0.0) && (c.MinusInfinity? <==> current < 0.0)
  {
    if avg != 0.0 then Finite((current - avg) / avg * 100.0)
    else if current > 0.0 then PlusInfinity
    else if current < 0.0 then MinusInfinity
    else NotANumber
  }

  /** JavaScript's `c < t` for a finite threshold `t`. */
  predicate Below(c: Change, t: real)
  {
    c.MinusInfinity? || (c.Finite? && c.pct < t)
  }

  /** JavaScript's `c > t` for a finite threshold `t`. */
  predicate Above(c: Change, t: real)
  {
    c.PlusInfinity? || (c.Finite? && c.pct > t)
  }

  /** What one successful chart fetch yields: the market price and the month's daily closes. */
  datatype Quote = Quote(price: real, closes: seq<Option<real>>)

  datatype Reading = Reading(current: real, monthAvg: real, changePercent: Change)

  /** The reading stored for a successful fetch: the month average is the mean of the closes. */
  function ReadingOf(q: Quote): (r: Reading)
    ensures r.current == q.price
    ensures Average.Kept(q.closes) == [] ==> r.monthAvg == 0.0 && !r.changePercent.Finite?
    ensures r.monthAvg != 0.0 ==> r.changePercent.Finite?
  {
    var avg := Average.CalculateAverage(q.closes);
    Reading(q.price, avg, ChangePercent(q.price, avg))
  }

  /** `a <= b` between two changes that are not NaN. */
  predicate AtMost(a: Change, b: Change)
  {
    match (a, b)
    case (NotANumber, _) => false
    case (_, NotANumber) => false
    case (MinusInfinity, _) => true
    case (_, PlusInfinity) => true
    case (Finite(x), Finite(y)) => x <= y
    case (_, _) => false
  }

  /** A smaller change passes every "below" threshold a larger one passes, and the reverse for "above". */
  lemma ComparisonsMonotone(a: Change, b: Change, t: real)
    requires AtMost(a, b)
    ensures Below(b, t) ==> Below(a, t)
    ensures Above(a, t) ==> Above(b, t)
  {
  }

  /** A window of positive closes with at least one present close gives a finite change. */
  lemma PositiveWindowIsFinite(q: Quote)
    requires Average.Kept(q.closes) != []
    requires forall v :: Some(v) in q.closes ==> v > 0.0
    ensures ReadingOf(q).changePercent.Finite?
    ensures ReadingOf(q).monthAvg > 0.0
  {
    Average.PositiveMean(q.closes);
  }

  /** The fetch outcome per instrument: `None` when the fetch or its parsing failed. */
  datatype Quotes = Quotes(
    sp500: Option<Quote>, usdils: Option<Quote>, bitcoin: Option<Quote>,
    gold: Option<Quote>, ta35: Option<Quote>)

  /** The `results` record: `None` (null) for an instrument whose fetch failed. */
  datatype Results = Results(
    sp500: Option<Reading>, usdils: Option<Reading>, bitcoin: Option<Reading>,
    gold: Option<Reading>, ta35: Option<Reading>)
  {
    function For(i: Instrument): Option<Reading>
    {
      match i
      case Sp500 => sp500
      case UsdIls => usdils
      case Bitcoin => bitcoin
      case Gold => gold
      case Ta35 => ta35
    }

    /** The record with instrument `i`'s entry replaced by `x`. */
    function With(i: Instrument, x: Option<Reading>): (r: Results)
      ensures r.For(i) == x
      ensures forall j: Instrument :: j != i ==> r.For(j) == For(j)
    {
      match i
      case Sp500 => this.(sp500 := x)
      case UsdIls => this.(usdils := x)
      case Bitcoin => this.(bitcoin := x)
      case Gold => this.(gold := x)
      case Ta35 => this.(ta35 := x)
    }
  }

  function QuoteFor(q: Quotes, i: Instrument): Option<Quote>
  {
    match i
    case Sp500 => q.sp500
    case UsdIls => q.usdils
    case Bitcoin => q.bitcoin
    case Gold => q.gold
    case Ta35 => q.ta35
  }

  /** The entry for one fetch outcome: a reading when the fetch succeeded, null otherwise. */
  function Entry(q: Option<Quote>): (r: Option<Reading>)
    ensures r.Some? <==> q.Some?
    ensures q.Some? ==> r.value.current == q.value.price
  {
    if q.Some? then Some(ReadingOf(q.value)) else None
  }

  /** The record after the five fetch blocks: each instrument's entry comes from its own fetch. */
  function ResultsOf(q: Quotes): (r: Results)
    ensures forall i: Instrument :: r.For(i) == Entry(QuoteFor(q, i))
  {
    Results(Entry(q.sp500), Entry(q.usdils), Entry(q.bitcoin), Entry(q.gold), Entry(q.ta35))
  }
}
