# Redemption index scoring engine, in Dafny

This project models the scoring engine of the "redemption index" endpoint (`api/check.js`).
The endpoint turns four groups of fetched signals into four bounded sub-scores:
- market moves (the "poverty" or economic-stress category);
- crime and violence reports in the news (the "chutzpah" or incivility category);
- co-mentions of a community with criticism (the "wisdom decay" or discourse-decay category);
- public interest in the Messiah topic (the "distraction" category).

It also suppresses everything during the Sabbath, adds the four sub-scores and reports the total as a percentage.
The network calls are not modelled.
What each fetch returns is a parameter of the model, and `None` stands for a failed fetch.

Modules, one per file:
- `Wrappers` (`wrappers.dfy`): `Option`.
- `Average` (`average.dfy`): `calculateAverage`, the mean of the present entries.
- `Keywords` (`keywords.dfy`): counting a literal pattern the way a global regular-expression match does, summed over a keyword list, and the `forEach` counting loop.
- `Tiers` (`tiers.dfy`): "first matching tier wins" over an ordered threshold table, which is what the evaluators' `if`/`else if` chains do.
- `Market` (`market.dfy`): the five instruments, a quote, a reading (`current`, `monthAvg`, `changePercent`) and the `results` record.
  A percentage change is a JavaScript number: finite, or the infinity or NaN that a zero average produces.
- `Metric` (`metric.dfy`): the `{ score, summary, details, quote }` result shared by all evaluators.
- `Economy`, `Chutzpah`, `WisdomDecay`, `Distraction`: the four evaluators (`economy.dfy`, `chutzpah.dfy`, `wisdom_decay.dfy`, `distraction.dfy`).
- `Blackout` (`blackout.dfy`): the Sabbath test.
- `Endpoint` (`endpoint.dfy`): the handler's scoring and the response envelope.

Where the code does work step by step, the model is a method proved equal to a specification function:
- the economic chain of `score +=` and `indicators.push`;
- the two keyword-counting loops;
- the filling of the `results` record.

The tier tables, the mean, the blackout test and the total are functions.

Facts about the code that the model keeps:
- The code divides by the month average without checking it for zero (`api/check.js:50`).
  A quote with no present close therefore yields an infinite change for a positive price, and this fires every "rising" tier.
  A negative price gives minus infinity, which fires the "falling" tiers, and a zero price gives NaN, which fires none.
  See `Economy.EmptyWindowReadsAsSurge` and `Market.ChangePercent`.
- There are five instruments (S&P 500, USD/ILS, Bitcoin, gold, TA-35).
- The blackout uses only the day of the week and the hour.
- An error that escapes the handler gets status 500 (`api/check.js:437-443`); that answer is HTTP plumbing and is not modelled.

## Model

| member | source | states |
|---|---|---|
| Average.CalculateAverage | api/check.js:6-11 | 0 when no entry is present (empty or all null/NaN); otherwise the sum of the present entries divided by their number |
| Average.AllAbsentAveragesZero | api/check.js:7-9 | an input whose entries are all null/NaN averages to 0 |
| Average.MeanWithinBounds | api/check.js:8-10 | the mean lies between any lower and any upper bound of the present entries |
| Average.PositiveMean | api/check.js:8-10 | a window of positive closes with at least one present close has a positive mean |
| Keywords.OccurrencesZeroIff | api/check.js:190-192 | the global match of a keyword finds nothing exactly when the keyword does not occur in the text |
| Keywords.Occurrences | api/check.js:190-192 | the matches of the global search do not overlap: their count times the keyword length is at most the text length |
| Keywords.KeywordCountZeroIff | api/check.js:186-193 | the summed count over the keyword list is 0 exactly when no keyword of the list occurs |
| Keywords.CountKeywords | api/check.js:187-193 | the `forEach` loop's count equals the sum over the keyword list of the per-keyword match counts |
| Tiers.FirstHit | api/check.js:202-213 | the chosen tier is the first whose threshold the value passes; every earlier tier is missed; the fallback applies only when all are missed |
| Tiers.FirstHitMonotone | api/check.js:202-213 | moving the value toward the thresholds can only select an earlier (or the same) tier |
| Market.ChangePercent | api/check.js:50 | for a non-zero average the change times the average is (current - average) * 100; a zero average gives no finite change: +infinity for a positive price, -infinity for a negative one, NaN for zero |
| Market.ReadingOf | api/check.js:44-51 | the reading keeps the price; a window with no present close has average 0 and no finite change; a non-zero average gives a finite change |
| Market.Entry | api/check.js:40-54 | a successful fetch stores a reading that keeps its price; a failed fetch leaves the entry null |
| Market.PositiveWindowIsFinite | api/check.js:45-50 | positive closes with at least one present give a positive month average and a finite change |
| Market.ResultsOf | api/check.js:31-122 | the record holds a reading exactly for the instruments whose fetch succeeded, and that reading is the quote's |
| Market.ComparisonsMonotone | api/check.js:128-157 | JavaScript `<` and `>` against a threshold, with infinities, are monotone in the change |
| Economy.TierOf | api/check.js:128-157 | a failed fetch reaches no tier; a reached tier adds positive points, at most the instrument's top tier, with an indicator for that instrument carrying its change |
| Economy.CollectResults | api/check.js:31-122 | the five fetch blocks leave the `results` record described by `Market.ResultsOf` |
| Economy.ScoreResults | api/check.js:125-164 | the `score +=` / `indicators.push` chain yields the score min(sum, 25), the indicators in block order, or the stable label when none fired |
| Economy.GetEconomyMetric | api/check.js:29-164 | the evaluator's result is the scoring of the record filled from the fetch outcomes |
| Economy.ScoreIsRawScore | api/check.js:128-160 | the five top tiers add up to 23, so the clamp at 25 never binds and the score is the raw sum |
| Economy.StableExactlyWhenQuiet | api/check.js:159-161 | the summary is the fixed "stable" text exactly when no indicator fired, exactly when the score is 0; otherwise it is the indicators joined |
| Economy.FiredInInstrumentOrder | api/check.js:128-161 | at most five indicators, one per instrument at most, in the order S&P, USD/ILS, BTC, gold, TA-35 |
| Economy.FailedFetchContributesNothing | api/check.js:52-54 | an instrument whose fetch failed pushes no indicator, and a reading for it would change the score by its own points only |
| Economy.TiersMonotone | api/check.js:128-157 | a lower change never scores less on S&P or TA-35 and never more on USD/ILS, Bitcoin or gold |
| Economy.EmptyWindowReadsAsSurge | api/check.js:46-50 | with no present close and a positive price, USD/ILS reaches 5 points, Bitcoin 4 and gold 3 on an infinite change; S&P and TA-35 reach nothing |
| Chutzpah.CountMetric | api/check.js:196-224 | score 20 iff count > 30 (percent > 150), 12 iff 24 < count <= 30, 6 iff 20 < count <= 24, 0 iff count <= 20, with the "normal" label at 0; details count, 20 and count * 5 |
| Chutzpah.GetChutzpahMetric | api/check.js:180-234 | the evaluator counts the keywords of the fetched text and grades the count; the error fallback when the fetch failed |
| Chutzpah.ScoreMonotone | api/check.js:202-213 | more reports never lower the incivility score |
| Chutzpah.QuietTextScoresZero | api/check.js:186-213 | a text in which no keyword occurs scores 0 with the "normal" label |
| Chutzpah.ScoreValues | api/check.js:199-216 | the incivility score is one of 0, 6, 12, 20 |
| WisdomDecay.Severity | api/check.js:258-263 | the status is the most severe for scores >= 18, then 12-17, 7-11, 3-6, and "relative quiet" below 3 |
| WisdomDecay.CountMetric | api/check.js:256-273 | the score is the match count up to 25 and 25 beyond; the status depends on the score alone |
| WisdomDecay.GetWisdomDecayMetric | api/check.js:246-283 | the loop's count is the sum of the per-keyword match counts, graded as above; the error fallback when the fetch failed |
| WisdomDecay.StatusMonotone | api/check.js:258-263 | a higher score never gets a milder status |
| WisdomDecay.CapSaturates | api/check.js:256 | beyond 25 matches, more matches change neither the score nor the status |
| Distraction.CountsMetric | api/check.js:320-355 | inverted table: 20 iff views + mentions < 36 (percent < 40), 14 iff < 54, 8 iff < 72, 4 iff < 90, 0 from 90 on; details with the total and its percentage |
| Distraction.DistractionMetric | api/check.js:296-318 | page views default to 80 when their fetch fails and mentions to 10 when theirs fails; otherwise they are the fetched views and the matches of the topic in the news text; the total is their sum and the score is 0 exactly when it reaches 90 |
| Distraction.ScoreAntitone | api/check.js:327-342 | more page views and mentions never raise the distraction score |
| Distraction.BothFetchesFailScoreZero | api/check.js:296-345 | with both fetches failed the defaults 80 + 10 make 100 percent: score 0, "normal interest" |
| Distraction.ScoreValues | api/check.js:324-345 | the distraction score is one of 0, 4, 8, 14, 20 |
| Blackout.IsSabbath | api/check.js:390 | the blackout falls only on Friday or Saturday: all of Saturday, and Friday from 15:00 |
| Blackout.Suppressed | api/check.js:396-399 | a blackout category has score 0, the Sabbath greeting as summary and empty details |
| Blackout.BlackoutWindow | api/check.js:390 | on a valid clock the blackout is exactly Friday from 15:00 through Saturday |
| Endpoint.DisplayedScore | api/check.js:414-426 | round(min(total, 99.9)) lies in [0, 100]; it is the total itself up to 99 and 100 from 100 on |
| Endpoint.Handler | api/check.js:383-435 | the handler's response is the blackout response during the Sabbath and the combined response of the four evaluators otherwise |
| Endpoint.SabbathSuppresses | api/check.js:390-401 | during the blackout the response does not depend on any fetched signal; all four scores are 0 with the same greeting, total 0 |
| Endpoint.ScoreCeilings | api/check.js:125-345 | the category scores stay within 23, 20, 25 and 20, so the total is at most 88 |
| Endpoint.RegularReport | api/check.js:413-428 | outside the blackout the displayed total equals the sum of the four scores, lies in [0, 88], and the next update is now + 600000 ms |

## Left out

- Network I/O: `fetchWithTimeout`, the abort timer, `fetch`, `.json()` and `.text()` are not modelled. Each fetch outcome is a parameter, `None` when the call or its parsing failed.
- Concurrency: `Promise.all` is not modelled. The four evaluators are independent, and the handler calls them in sequence.
- HTTP plumbing is not modelled: the response headers, the `OPTIONS` pre-flight answer and the status-500 answer to an escaped error.
- Logging: `console.log` and `console.error` are diagnostics only.
- Dates: `new Date()`, `getDay`, `getHours`, `toISOString` and the "yesterday" date key of the page-view URL are not modelled. The local day, the local hour and the current instant in milliseconds are parameters, and timestamps stay in milliseconds.
- Number formatting: `toFixed(1)` in the indicator texts and in the `percent` details is not modelled. An indicator is its instrument, its text prefix and its change, and a percentage detail is the exact value.
- The co-occurrence pattern of the discourse-decay evaluator is not modelled. It is a lazy either-order regular expression. Its match count per keyword is the parameter `coMentions`.
- The global keyword match is modelled as a literal left-to-right scan. The keywords are Hebrew words without metacharacters, for which the case-insensitive flag changes nothing.
- Floating point: numbers are exact reals, so the rounding error of `(total / 100) * 100` is not modelled. `Math.round` removes that error for integer totals. The zero-average division is modelled, with its infinities and NaN.
- Malformed payloads are not modelled: a missing `views` field or a non-numeric price would make NaN in the source. Page views are naturals and prices are reals.
- A `null` price is not modelled. In the source it counts as 0 in the numerator of the change, so for a non-zero month average it reads as a fall of exactly 100 percent: 6 points on S&P, 5 on TA-35, nothing on the rising tiers.
- The outer `catch` of the economic and distraction evaluators (lines 166-174 and 357-365) is not modelled: no failure reaches it, because every fetch has its own `try` and the scoring cannot throw. The incivility and discourse-decay fallbacks are modelled.
- The `!arr` test of `calculateAverage` is not modelled: the input is always a sequence.
