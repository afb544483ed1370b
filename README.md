# Ceiling Smasher: a verified model of the screening core

This project models the deterministic core of the Ceiling Smasher market
scanner in Dafny. It then proves what that core promises.

- **Ticker extraction** (`TickerExtractor`, `TickerExamples`). The AI council's
  analyst text is scanned with three patterns: numbered list items,
  "THE LONG:/THE MOONSHOT:" call-outs and `$` cashtags. Stop words are dropped
  and duplicates removed.
- **Gemini retry policy** (`GeminiRetry`). `_generate_with_log` retries
  rate-limited calls with exponential backoff plus jitter and builds a log entry.
- **CIO pre-filter and red-team report** (`CouncilReports`). The highlight
  filter has a fallback to the first 20,000 characters of the raw report. The
  red-team report has one section per vetted ticker.
- **Breakout technicals** (`Technicals`): rolling 52-week high, SMA 20/50,
  relative volume, 14-day RSI, and the 0–100 breakout score.
- **The three scanners** (`ScanCommon`, `UsScanner`, `IntlScanner`,
  `EtfScanner`). Each scan analyses every symbol, keeps scores of at least 20,
  and sorts by score, whatever order the worker threads finish in.
- **The fundamentals screener** (`Screener`, `Consolidated`):
  - the VALUE/GROWTH/MICROCAP filters;
  - the FMP request retry on HTTP 429;
  - mode selection;
  - the deduplicated universe;
  - per-strategy hits;
  - the technical enrichment merge;
  - the sorted top-20 report sections.

Everything outside the program is a parameter of the model:
- the network (Gemini, Financial Modeling Prep, Yahoo Finance);
- the clock, and the random jitter;
- the order in which concurrent jobs complete.

A completion order is any permutation of the submitted symbols. The history
download is a function from symbol to an optional bar series, where `None`
stands for a download that raised.

Where the code and its comments disagree, the model follows the code:
- The scanners drop a score `< 20`, so a score of exactly 20 is kept
  (`stocks_us/scanner.py:79`), although the comment says "> 20".
- `_make_api_request` sleeps 60 seconds after the third 429 as well, then gives
  up (`Screener.ThreeRateLimits`).
- No strategy defines `min_revenue_growth`, so growth data is never requested
  (`Screener.NeverNeedsGrowth`).

## Model

| member | source | states |
|---|---|---|
| Common.Dedup | ai/analyst.py:259 | `list(set(...))`: no duplicates, exactly the same members, never longer |
| Common.DedupPrefix | fundamentals/screener.py:284 | first-occurrence order: appending to a list never reorders its distinct elements, as a dict comprehension keeps key insertion order |
| Common.DedupOfDistinct | ai/analyst.py:259 | a list that already has no duplicates is returned unchanged |
| TickerExtractor.NumberedAt | ai/analyst.py:237 | a numbered-item match starts at the text's start or at a newline; its capture is a valid symbol inside the match |
| TickerExtractor.CallOutAt | ai/analyst.py:242 | a call-out match starts with "THE LONG" or "THE MOONSHOT"; its capture is a valid symbol inside the match |
| TickerExtractor.CashtagAt | ai/analyst.py:247 | a cashtag match starts at a '$'; its capture is a valid symbol inside the match |
| TickerExtractor.Captures | ai/analyst.py:237-248 | the captures of the three patterns: every one is a 2–6 capital-letter symbol that occurs in the text |
| TickerExtractor.FindAll | ai/analyst.py:237-248 | `re.findall` of a pattern, scanning left to right: every capture is a 2–6 capital-letter symbol that occurs in the text |
| TickerExtractor.MatchAt | ai/analyst.py:237-247 | a match of any of the three patterns ends after its start and within the text, and its capture is a valid symbol that occurs inside the match |
| TickerExtractor.DropStopWords | ai/analyst.py:252-257 | a capture is kept iff it is not one of the fourteen stop words |
| TickerExtractor.NoStopWordsKept | ai/analyst.py:252-257 | captures without stop words pass the filter unchanged |
| TickerExtractor.ExtractTickers | ai/analyst.py:215-259 | result has no duplicates; a symbol is in it iff some pattern captures it and it is not a stop word; every ticker is a valid symbol found in the text |
| TickerExtractor.TickersStartAtCapitals | ai/analyst.py:237-247 | every extracted ticker starts at a capital letter of the text |
| TickerExtractor.NoCapitalsNoTickers | ai/analyst.py:241-242 | matching is case-sensitive: text without capitals yields no ticker |
| TickerExtractor.LowerCaseCallOut | ai/analyst.py:241-242 | "the long: tsla" yields nothing |
| TickerExamples.NumberedBodyNeedsDot | ai/analyst.py:237 | a numbered item needs digits followed by a dot |
| TickerExamples.NoDotNoNumbered | ai/analyst.py:237 | text without a '.' has no numbered-item capture |
| TickerExamples.CallOutNeedsSpace | ai/analyst.py:242 | a call-out needs "THE " before LONG or MOONSHOT |
| TickerExamples.NoSpaceNoCallOut | ai/analyst.py:242 | text without a space has no call-out capture |
| TickerExamples.NoDollarNoCashtag | ai/analyst.py:247 | text without '$' has no cashtag capture |
| TickerExamples.SingleCapture | ai/analyst.py:252-259 | a single capture is returned unless it is a stop word |
| TickerExamples.CashtagText | ai/analyst.py:247 | "$" + a symbol yields that symbol (unless a stop word) |
| TickerExamples.CallOutText | ai/analyst.py:242 | "THE LONG: " + a symbol yields that symbol (unless a stop word) |
| TickerExamples.NumberedItemAt0 | ai/analyst.py:237 | a decimal digit (`\d`: any Unicode decimal digit), ". " and a symbol at the start of the text are captured by the numbered pattern |
| TickerExamples.NumberedText | ai/analyst.py:237 | a decimal digit, ". " and a symbol yield that symbol (unless a stop word) |
| TickerExamples.ArabicIndicNumbered | ai/analyst.py:237 | "١. AAPL" (an Arabic-Indic digit one) yields AAPL: `\d` on a `str` pattern matches every Unicode decimal digit |
| TickerExamples.IndentedItem | ai/analyst.py:237 | an item indented by a space (" 1. AAPL") is not captured, since the pattern allows only markdown characters after the line start |
| TickerExamples.NumberedStopWord | ai/analyst.py:237-259 | "1. AND" yields no ticker: the numbered item is captured, then dropped as a stop word |
| TickerExamples.SampleLiteral | ai/analyst.py:215-259 | a text with a bracketed numbered item, a plain numbered item, a "THE LONG:" call-out and a cashtag ("1. [AAPL]", "2. MSFT", "THE LONG: TSLA", "$NVDA" on four lines) yields AAPL, MSFT, TSLA, NVDA in that order |
| GeminiRetry.AttemptsShape | ai/analyst.py:109-150 | at most 4 calls (from `Attempts`); every call before the last was rate-limited; the loop stops early only on success or a non-rate-limit error; the result is the last call's outcome; one sleep of `2·2^k + jitter` between calls |
| GeminiRetry.Attempts | ai/analyst.py:109-141 | the run from attempt `k`: more than `k` and at most 4 calls, with one sleep between consecutive calls |
| GeminiRetry.Run | ai/analyst.py:109-150 | the whole run: 1 to 4 calls, one sleep fewer than calls |
| GeminiRetry.RequestDigest | ai/analyst.py:95 | the logged request is the contents, cut to 500 characters plus "..." when longer |
| GeminiRetry.ResponseDigest | ai/analyst.py:118-121 | the logged response is the text's first 200 characters plus "...", or "No Text" for an empty text |
| GeminiRetry.GenerateWithLog | ai/analyst.py:84-152 | the loop's calls, sleeps and result are those of the retry policy `Run`; the log records the model, the request digest, and the response or error |
| GeminiRetry.SleepBounds | ai/analyst.py:135-141 | the k-th sleep lies in [2·2^k, 2·2^k + 1]; at most 3 sleeps, 17 seconds in total |
| GeminiRetry.OtherErrorRaisedAtOnce | ai/analyst.py:133-150 | an error that is not a 429/RESOURCE_EXHAUSTED is raised at once, without a retry |
| GeminiRetry.AllRateLimited | ai/analyst.py:109-150 | when every call is rate-limited: 4 calls, 3 sleeps, and the last error is raised |
| GeminiRetry.FirstAttemptSucceeds | ai/analyst.py:118-125 | a first successful call returns its text with no sleep |
| CouncilReports.Lines | ai/analyst.py:407 | `splitlines()`: no lines iff the text is empty; never more lines than characters |
| CouncilReports.LinesNoNewline | ai/analyst.py:407 | `splitlines()`: no produced line holds a newline |
| CouncilReports.LinesUnlines | ai/analyst.py:407-409 | splitting lines that were each terminated by "\n" gives the lines back |
| CouncilReports.UnlinesLines | ai/analyst.py:407-409 | re-joining the split lines gives the text back, with a final newline added if it had none |
| CouncilReports.Highlights | ai/analyst.py:408 | a line is kept iff it contains "HIT", "MATCH", "Score", "\|" or "#"; never more lines than given |
| CouncilReports.HighlightsAppend | ai/analyst.py:407-410 | order and multiplicity are kept: the highlights of a concatenation are the highlights of each part, in order, and a single line is kept exactly when it is a highlight |
| CouncilReports.PreFiltered | ai/analyst.py:403-413 | the CIO context is either the filter header with highlights, at least 500 characters long, or a prefix of the raw report of at most 20,000 characters |
| CouncilReports.PreFilter | ai/analyst.py:403-413 | the loop builds exactly `PreFiltered(report)` |
| CouncilReports.PreFilteredKeepsHighlights | ai/analyst.py:403-409 | when long enough, the context is the header followed by exactly the highlighted lines |
| CouncilReports.PreFilteredFallback | ai/analyst.py:411-413 | under 500 characters the context is the report's prefix of min(\|report\|, 20000) characters |
| CouncilReports.Section | ai/analyst.py:279-306 | one ticker's section opens with its "#### Analysis:" heading and ends with the rule after an analysis, or with a blank line after an error |
| CouncilReports.Sections | ai/analyst.py:273-306 | the sections of all tickers: empty iff there are no tickers |
| CouncilReports.SectionsAppend | ai/analyst.py:274-309 | the report grows by one ticker's section per loop iteration |
| CouncilReports.SectionsSplit | ai/analyst.py:274-309 | the report is the sections before ticker `i`, then ticker `i`'s own section, then the rest: each ticker's outcome, success or failure, shows only in its own section |
| CouncilReports.RedTeam | ai/analyst.py:261-311 | no client gives the key error; no tickers gives "No tickers provided to vet."; otherwise header + one section per ticker, in order (analysis plus rule, or the error line) |
| Technicals.MaxOf | stocks_international/technicals.py:26 | an upper bound of the window that is attained in it |
| Technicals.RollingMax | stocks_international/technicals.py:26 | defined iff the window is full; then the maximum of the last `w` values |
| Technicals.RollingMean | stocks_international/technicals.py:32-38 | defined iff the window is full; non-negative for non-negative input |
| Technicals.MeanBounds | stocks_international/technicals.py:32-38 | a rolling mean lies between the window's bounds |
| Technicals.RsiOf | stocks_international/technicals.py:42-46 | undefined iff average gain and loss are both 0; within [0, 100]; equal to 100 iff there is no loss |
| Technicals.Rsi | stocks_international/technicals.py:42-46 | undefined before row 14 (the first row's NaN difference counts as 0 through `where`); within [0, 100] |
| Technicals.RsiBelowHundred | stocks_international/technicals.py:42-46 | with a full window, the RSI is defined and below 100 iff the window's mean loss is positive |
| Technicals.RowAt | stocks_international/technicals.py:24-46 | one row of the frame: the bar's prices; the 52-week high, SMA 20/50 and 20-day average volume defined iff their window is full; RVOL times the average volume gives the volume; RSI only with a full window and within [0, 100] |
| Technicals.Ratio | stocks_international/technicals.py:38 | a pandas division: defined iff the divisor is defined and non-zero, and then the quotient times the divisor gives the dividend back |
| Technicals.CalculateTechnicals | stocks_international/technicals.py:5-54 | one row per bar, same price columns; the 52-week high, SMA 20/50 and 20-day average volume are defined iff their window is full; RVOL and RSI are defined only with a full window |
| Technicals.High52IsWindowMax | stocks_international/technicals.py:26 | from row 252 on, the 52-week high is the maximum of the last 252 highs |
| Technicals.RvolUndefinedOnlyForZeroVolume | stocks_international/technicals.py:37-38 | with a full window, RVOL is missing only for a zero-volume day |
| Technicals.Score | stocks_international/technicals.py:81-87 | a multiple of 10, at most 100; above 60 only with the breakout award |
| Technicals.AnalyzeBreakout | stocks_international/technicals.py:56-97 | `{}` iff the frame is missing or empty; an index error iff it has one row; otherwise the score of the last row |
| Technicals.HighScoreIsBreakout | stocks_international/technicals.py:69-87 | breaking out iff close ≥ 98% of the 52-week high; a score over 60 implies breaking out |
| Technicals.ShortHistoryNoBreakout | stocks_international/technicals.py:26-82 | under 252 rows: no 52-week high, no breakout, score ≤ 60 |
| Technicals.ShortHistoryScore | stocks_international/technicals.py:81-87 | under 20 rows the score is ≤ 20; under 14 rows it is ≤ 10 |
| Technicals.PctFromHigh | stocks_international/technicals.py:69 | the distance from the high is defined iff the high is defined and non-zero; then it times the high is 100·(close − high) |
| Technicals.PctFromHighSign | stocks_international/technicals.py:69 | the distance from the high is non-negative iff the close is at or above it |
| Sorting.SortDesc | stocks_us/scanner.py:65 | `sort(reverse=True)`: sorted by descending key, a permutation of the input |
| Sorting.SortStable | stocks_us/scanner.py:65 | the sort is stable: items with equal keys keep their relative order |
| ScanCommon.GetMarketData | stocks_us/market_data.py:7-26 | a history is returned iff the download worked and has at least 50 rows |
| ScanCommon.Screen | stocks_us/scanner.py:68-83 | no data gives a skip; one row raises; kept iff ≥ 2 rows and score ≥ 20, then tagged with the symbol |
| ScanCommon.GuardedNeverRaises | stocks_us/market_data.py:15-18 | behind the 50-row guard the index error cannot happen |
| ScanCommon.KeptOf | stocks_us/scanner.py:50-62 | the results collected in a completion order: never more than the symbols submitted |
| ScanCommon.Collect | stocks_us/scanner.py:50-62 | the collection loop builds exactly `KeptOf` of the completion order |
| ScanCommon.KeptOfSource | stocks_us/scanner.py:50-62 | every collected result is the analysis of one of the submitted symbols |
| ScanCommon.KeptOfComplete | stocks_us/scanner.py:50-62 | every kept analysis of a submitted symbol is collected |
| ScanCommon.KeptOfPermutation | stocks_us/scanner.py:50-62 | the completion order does not change which results are collected |
| ScanCommon.CollectAndSort | stocks_us/scanner.py:33-66 | sorted by descending score; as a multiset, exactly the kept analyses of the symbols, in any completion order |
| UsScanner.GetMarketTickers | stocks_us/scanner.py:21-31 | "full": S&P 500, Nasdaq 100 and defaults without duplicates; otherwise the default list |
| UsScanner.AnalyzeTicker | stocks_us/scanner.py:68-83 | never raises; a kept result carries the symbol, no category, score ≥ 20, from ≥ 50 rows |
| UsScanner.ScanTickers | stocks_us/scanner.py:33-66 | sorted by score; exactly the kept analyses; each for a submitted symbol with score ≥ 20 |
| IntlScanner.ScanTypeIgnored | stocks_international/scanner.py:9-12 | the scan type is ignored: always the ADR list |
| IntlScanner.AnalyzeTicker | stocks_international/scanner.py:45-60 | as in the U.S. scanner, and the result is tagged "International" |
| IntlScanner.ScanTickers | stocks_international/scanner.py:14-43 | sorted by score; exactly the kept analyses; each tagged "International" with score ≥ 20 |
| EtfScanner.Category | etfs/scanner.py:48-52 | the tag names the first of Country, Commodity, Sector, Bond/Yield whose list holds the symbol, and "Other" iff none does |
| EtfScanner.OtherOnlyOutsideLists | etfs/scanner.py:48-52 | "Other" iff the symbol is in none of the four lists |
| EtfScanner.AnalyzeTicker | etfs/scanner.py:32-54 | never raises; a kept ETF carries its category with the list precedence Country, Commodity, Sector, Bond/Yield |
| EtfScanner.ScanEtfs | etfs/scanner.py:8-30 | sorted by score; exactly the kept ETFs of `ALL_ETFS`; none is tagged "Other" |
| Screener.StrategyFilters | fundamentals/screener.py:36-93 | every strategy has positive EV/EBITDA and debt/equity caps, margin and FCF minimums that are fractions, and no growth filter |
| Screener.FcfYield | fundamentals/screener.py:226-230 | a missing or null FCF yield counts as 0 |
| Screener.GrowthCheck | fundamentals/screener.py:201-210 | without a growth filter, growth is not checked |
| Screener.CheckStrategyFilters | fundamentals/screener.py:189-249 | fails on missing data; a hit reports values read from the data that lie within every bound (0 < EV/EBITDA ≤ max, D/E ≤ max, margin ≥ min, FCF ≥ min) |
| Screener.PassesWithinBounds | fundamentals/screener.py:212-245 | conversely, for filters without a growth minimum (all three strategies), data within every bound is a hit |
| Screener.MissingFcfYield | fundamentals/screener.py:226-230 | with no FCF yield, only a filter with min ≤ 0 can pass: VALUE and MICROCAP reject |
| Screener.NoStrategyChecksGrowth | fundamentals/screener.py:36-93 | no strategy has a revenue growth filter, so no hit carries growth |
| Screener.ApiFrom | fundamentals/screener.py:129-143 | at most 3 requests; every request before the last got 429; a non-429 response is returned at once; a request error gives up at once |
| Screener.MakeApiRequest | fundamentals/screener.py:124-143 | the loop's requests, sleeps and response are those of `ApiFrom` |
| Screener.ThreeRateLimits | fundamentals/screener.py:129-143 | three 429s give 3 requests, 3 sleeps and no response |
| Screener.FirstRequestErrorNoRetry | fundamentals/screener.py:138-140 | a request error is not retried |
| Screener.FirstResponseReturned | fundamentals/screener.py:132-137 | a first non-429 response is returned without a sleep |
| Screener.UpperChar | fundamentals/screener.py:255 | `str.upper` yields a capital letter only from a letter that upper-cases to it |
| Screener.ValidModes | fundamentals/screener.py:255 | a mode is valid iff some input upper-cases to a strategy name |
| Screener.Upper | fundamentals/screener.py:255 | `str.upper`: a string of capitals comes back unchanged, and every character of the result is already upper case |
| Screener.UpperIdempotent | fundamentals/screener.py:255 | upper-casing twice is upper-casing once |
| Screener.ModeCaseIgnored | fundamentals/screener.py:255 | a mode in any mix of cases is accepted as the strategy name it upper-cases to, exactly as that name itself is |
| Screener.NeverNeedsGrowth | fundamentals/screener.py:282 | `needs_growth` is always False |
| Consolidated.UniverseOf | fundamentals/screener.py:266-271 | the union of every valid mode's universe |
| Consolidated.CollectUniverse | fundamentals/screener.py:266-271 | the loop builds exactly that union |
| Consolidated.HitOf | fundamentals/screener.py:288-297 | one completed symbol adds at most one hit to a strategy's list, and one exactly when its record exists and passes the filters, namely the filter result |
| Consolidated.HitsOf | fundamentals/screener.py:286-314 | a strategy's list: never more hits than completed symbols |
| Consolidated.HitsOfConcat | fundamentals/screener.py:303-314 | the list follows the completion order: symbols completed first contribute first, and a single symbol contributes its own `HitOf` |
| Consolidated.HitsOfMember | fundamentals/screener.py:286-314 | a hit is listed for a strategy iff a screened symbol's data passes its filters |
| Consolidated.ScreenResults | fundamentals/screener.py:284-314 | `results` has a list for exactly the valid modes |
| Consolidated.ScreenSymbols | fundamentals/screener.py:284-314 | the collection loop builds exactly the per-strategy hit lists |
| Consolidated.AppendMatches | fundamentals/screener.py:292-314 | one symbol's matches are appended to each matching strategy's list |
| Consolidated.ListedIffPasses | fundamentals/screener.py:286-314 | a hit appears under a strategy iff a universe symbol's data passes that strategy's filters |
| Consolidated.Survivors | fundamentals/screener.py:318-321 | the survivors are, without duplicates, the symbols listed under any strategy |
| Consolidated.TechMap | fundamentals/screener.py:332-368 | the technicals map covers exactly the survivors whose analysis produced a result |
| Consolidated.TechOf | fundamentals/screener.py:372-382 | a listed stock gets its own technicals when they were computed, otherwise the "N/A" placeholder with score 0 |
| Consolidated.MergeAll | fundamentals/screener.py:370-382 | every hit keeps its fields and gets technicals: its own when available, otherwise the placeholder with score 0 |
| Consolidated.Unmerged | fundamentals/screener.py:408-412 | the lists saved when nothing survived keep their hits in place, and the report sorts them by EV/EBITDA, not by score |
| Consolidated.MergeItems | fundamentals/screener.py:370-382 | the merge loop builds exactly `MergeAll` |
| Consolidated.Merge | fundamentals/screener.py:370-382 | every strategy's list is merged |
| Consolidated.ReportRows | fundamentals/screener.py:409-415 | min(n, 20) rows, sorted by score (or by ascending EV/EBITDA without technicals); every reported row outranks every dropped one |
| Consolidated.Report | fundamentals/screener.py:401-415 | one section per mode, in order; each has min(n, 20) rows, sorted, drawn from that mode's list |
| Consolidated.FinalResults | fundamentals/screener.py:316-385 | the lists the report is written from cover exactly the given modes |
| Consolidated.ConsolidatedReport | fundamentals/screener.py:284-415 | the saved report has one section per distinct given mode, each mode exactly once, in the order of the modes' first occurrences (the key order of `results`) |
| Consolidated.ReportedRowsPass | fundamentals/screener.py:284-415 | end to end: every row of the saved report is the hit of a screened symbol whose record passes the filters of that row's strategy |
| Consolidated.NoSurvivorsNoRows | fundamentals/screener.py:323-327 | with no survivors every strategy's list is empty, so the EV/EBITDA sort is never used by a run |
| Consolidated.MergedRowsByScore | fundamentals/screener.py:409-410 | after the merge, the rows carry technicals and are sorted by technical score |
| Consolidated.ScreenAndReport | fundamentals/screener.py:284-385 | the screening, enrichment and report phases produce the consolidated report |
| Consolidated.RunConsolidated | fundamentals/screener.py:251-385 | no valid mode, no API key and no candidates each stop the run; otherwise the report has one section per distinct valid mode |

## Left out

- Network, files and logging are left out. The model covers no Gemini, FMP or
  Yahoo Finance client, no report file writing, no console printing and no log
  file. The outcome of every call is an input sequence or function.
- Time and randomness are parameters: `time.sleep` is recorded as a sleep
  length, and `random.uniform(0, 1)` is a given jitter sequence.
- Concurrency is not modelled: thread pools are a completion order (a
  permutation of the submitted jobs). The worker counts do not matter to the
  results.
- Floating point is modelled with real numbers. NaN and ±inf appear only as
  an undefined (`None`) value. A 52-week high of 0 makes `pct_from_high`
  ±inf (or NaN for a close of 0 too); `Technicals.PctFromHigh` gives `None`
  for both, and the score does not depend on it.
- The formatting of output fields is left out: rounding, "x" and "%"
  suffixes, and markdown tables. The report's EV/EBITDA sort uses the value
  before rounding.
- The Bollinger bands and the `Returns` column of `calculate_technicals` are
  not modelled: no breakout score depends on them.
- `stocks_us/technicals.py`, `etfs/market_data.py` and `etfs/technicals.py`
  are not part of this model. The U.S. and ETF scanners import them
  (`stocks_us/scanner.py:3-4`, `etfs/scanner.py:3-4`). The model assumes they
  behave like `stocks_international/technicals.py` and like the 50-row guard
  of `stocks_us/market_data.py`. The rows of `UsScanner.AnalyzeTicker`,
  `UsScanner.ScanTickers`, `EtfScanner.AnalyzeTicker` and `EtfScanner.ScanEtfs`
  ("never raises", "from at least 50 rows") rest on that assumption.
- The screener's Phase 3 calls a `stocks_us/technicals.py` that is not part
  of this model. Its per-symbol result is the input function `tech`.
- `fetch_universe` and `fetch_financial_data` are input functions. The JSON
  they return is a map of numbers or nulls. Non-numeric values are left out.
- `list(set(...))` has no defined order in Python. The model keeps first
  occurrences.
- Python's sort leaves the order of equal scores to stability. The model
  proves stability (`Sorting.SortStable`); tie order is otherwise
  unconstrained.
- CouncilReports.Lines: `str.splitlines` also splits on "\r" and other line
  breaks; the model splits on "\n" only.
- Screener.UpperChar: models `str.upper` for ASCII letters and the two
  characters that upper-case to ASCII letters ('ı' and 'ſ'). This is exact
  for matching strategy names; other characters are left unchanged.
- GeminiRetry.GenerateWithLog: response truthiness is modelled as a non-empty
  text.
- `\d` follows the decimal digits of Unicode 15.0, the version of Python
  3.12's `unicodedata`; other Python versions may know a few more or fewer.
- IntlScanner.GetMarketTickers: returns the ADR list; its only property, that
  the scan type is ignored, is `IntlScanner.ScanTypeIgnored`.
- The other personas of `ai/analyst.py` (prompt loading, chart and table
  rendering) are left out. They are formatting around a model call.
