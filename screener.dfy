/** The fundamentals screen (`fundamentals/screener.py`): the three strategy
    filter sets, the filter check applied to one symbol's financial data, the
    rate-limit retry of the HTTP helper, and the selection of modes. */
module Screener {
  import opened Common

  /** A JSON value read from a financial-data record: `null` or a number. */
  datatype Value = Null | Num(x: real)

  /** A JSON object of the record (`Ratios`, `Metrics`, `Growth`). */
  type Dict = map<string, Value>

  /** `dict.get(key)`: a missing key reads as `None`, like `null`. */
  function Get(d: Dict, key: string): Value {
    if key in d then d[key] else Null
  }

  /** `dict.get(key, default)`: only a missing key takes the default. */
  function GetOr(d: Dict, key: string, default: real): Value {
    if key in d then d[key] else Num(default)
  }

  /** The record `fetch_financial_data` assembles for one symbol; `None` stands
      for a key the record lacks. */
  datatype FinData = FinData(symbol: Option<string>, ratios: Option<Dict>,
                             metrics: Option<Dict>, growth: Option<Dict>)

  /** The `filters` of a strategy; the two growth minima are optional keys. */
  datatype Filters = Filters(maxEvEbitda: real, maxDebtEquity: real, minGrossMargin: real,
                             minFcfYield: real, minRevenueGrowth: Option<real>,
                             minNetIncomeGrowth: Option<real>)

  const EvKey := "enterpriseValueMultipleTTM"
  const DebtKey := "debtToEquityRatioTTM"
  const MarginKey := "grossProfitMarginTTM"
  const FcfKey := "freeCashFlowYieldTTM"
  const RevenueGrowthKey := "revenueGrowth"
  const NetIncomeGrowthKey := "netIncomeGrowth"

  const StrategyNames: seq<string> := ["VALUE", "GROWTH", "MICROCAP"]

  const ValueFilters := Filters(8.0, 0.6, 0.20, 0.08, None, None)
  const GrowthFilters := Filters(35.0, 0.8, 0.40, 0.0, None, None)
  const MicrocapFilters := Filters(10.0, 0.5, 0.15, 0.05, None, None)

  /** `STRATEGIES[name]['filters']` for a strategy name. */
  function StrategyFilters(name: string): (f: Filters)
    requires name in StrategyNames
    ensures 0.0 < f.maxEvEbitda && 0.0 < f.maxDebtEquity < 1.0
    ensures 0.0 < f.minGrossMargin < 1.0 && 0.0 <= f.minFcfYield < 1.0
    ensures f.minRevenueGrowth.None? && f.minNetIncomeGrowth.None?
  {
    if name == "VALUE" then ValueFilters
    else if name == "GROWTH" then GrowthFilters
    else MicrocapFilters
  }

  /** The formatted result of a symbol that passes: the checked values, and
      the revenue growth when the filters check growth. */
  datatype Hit = Hit(symbol: string, evEbitda: real, debtEquity: real, grossMargin: real,
                     fcfYield: real, growth: Option<real>)

  /** A missing or `null` free-cash-flow yield counts as 0. */
  function FcfYield(metrics: Dict): (y: real)
    ensures (FcfKey in metrics && metrics[FcfKey].Num?) ==> y == metrics[FcfKey].x
    ensures !(FcfKey in metrics && metrics[FcfKey].Num?) ==> y == 0.0
  {
    var v := GetOr(metrics, FcfKey, 0.0);
    if v.Null? then 0.0 else v.x
  }

  /** The growth checks, run only when the filters name a revenue-growth
      minimum: `Some(None)` when they do not apply, `Some(Some(g))` with the
      revenue growth when they pass, `None` when they reject (no growth data,
      a growth below a minimum, or a `null` growth, whose comparison raises). */
  function GrowthCheck(growth: Dict, f: Filters): (r: Option<Option<real>>)
    ensures f.minRevenueGrowth.None? ==> r == Some(None)
    ensures f.minRevenueGrowth.Some? && r.Some? ==>
      growth != map[] && r.value.Some? && r.value.value >= f.minRevenueGrowth.value
      && GetOr(growth, RevenueGrowthKey, 0.0) == Num(r.value.value)
  {
    if f.minRevenueGrowth.None? then Some(None)
    else if growth == map[] then None
    else
      var rg := GetOr(growth, RevenueGrowthKey, 0.0);
      var ni := GetOr(growth, NetIncomeGrowthKey, 0.0);
      if rg.Null? || rg.x < f.minRevenueGrowth.value then None
      else if ni.Null? || ni.x < (if f.minNetIncomeGrowth.Some? then f.minNetIncomeGrowth.value else 0.0) then None
      else Some(Some(rg.x))
  }

  /** `check_strategy_filters(data, filters)`. A key the record lacks raises
      inside the `try`, so it rejects like a failed check. */
  function CheckStrategyFilters(data: FinData, f: Filters): (r: Option<Hit>)
    ensures data.symbol.None? || data.ratios.None? || data.metrics.None? ==> r.None?
    ensures r.Some? ==>
      data.symbol == Some(r.value.symbol)
      && Get(data.ratios.value, EvKey) == Num(r.value.evEbitda)
      && 0.0 < r.value.evEbitda <= f.maxEvEbitda
      && Get(data.ratios.value, DebtKey) == Num(r.value.debtEquity)
      && r.value.debtEquity <= f.maxDebtEquity
      && Get(data.ratios.value, MarginKey) == Num(r.value.grossMargin)
      && r.value.grossMargin >= f.minGrossMargin
      && r.value.fcfYield == FcfYield(data.metrics.value)
      && r.value.fcfYield >= f.minFcfYield
    ensures r.Some? ==> (r.value.growth.Some? <==> f.minRevenueGrowth.Some?)
  {
    if data.symbol.None? || data.ratios.None? || data.metrics.None? then None
    else
      var growth := if data.growth.Some? then data.growth.value else map[];
      match GrowthCheck(growth, f)
      case None => None
      case Some(revenueGrowth) =>
        var ratios := data.ratios.value;
        var ev := Get(ratios, EvKey);
        var de := Get(ratios, DebtKey);
        var gm := Get(ratios, MarginKey);
        var fcf := FcfYield(data.metrics.value);
        if ev.Null? || ev.x > f.maxEvEbitda || ev.x <= 0.0 then None
        else if de.Null? || de.x > f.maxDebtEquity then None
        else if gm.Null? || gm.x < f.minGrossMargin then None
        else if fcf < f.minFcfYield then None
        else Some(Hit(data.symbol.value, ev.x, de.x, gm.x, fcf, revenueGrowth))
  }

  /** The converse, for filters without growth checks: a complete record whose
      values are all within the bounds passes. */
  lemma PassesWithinBounds(data: FinData, f: Filters)
    requires f.minRevenueGrowth.None?
    requires data.symbol.Some? && data.ratios.Some? && data.metrics.Some?
    requires Get(data.ratios.value, EvKey).Num? && Get(data.ratios.value, DebtKey).Num?
      && Get(data.ratios.value, MarginKey).Num?
    requires 0.0 < Get(data.ratios.value, EvKey).x <= f.maxEvEbitda
    requires Get(data.ratios.value, DebtKey).x <= f.maxDebtEquity
    requires Get(data.ratios.value, MarginKey).x >= f.minGrossMargin
    requires FcfYield(data.metrics.value) >= f.minFcfYield
    ensures CheckStrategyFilters(data, f).Some?
  {}

  /** A record without a free-cash-flow yield passes only filters whose
      minimum yield is at most 0: of the three strategies, only GROWTH. */
  lemma MissingFcfYield(data: FinData, f: Filters)
    requires data.metrics.Some? && !(FcfKey in data.metrics.value && data.metrics.value[FcfKey].Num?)
    ensures CheckStrategyFilters(data, f).Some? ==> f.minFcfYield <= 0.0
    ensures CheckStrategyFilters(data, ValueFilters).None?
    ensures CheckStrategyFilters(data, MicrocapFilters).None?
  {}

  /** No strategy names a revenue-growth minimum, so the growth checks never
      run and no result carries a growth figure. */
  lemma NoStrategyChecksGrowth(name: string, data: FinData)
    requires name in StrategyNames
    ensures StrategyFilters(name).minRevenueGrowth.None?
    ensures CheckStrategyFilters(data, StrategyFilters(name)).Some? ==>
      CheckStrategyFilters(data, StrategyFilters(name)).value.growth.None?
  {}

  // ---------------------------------------------------------------------------
  // `_make_api_request`: up to three requests, sleeping 60 seconds after each
  // HTTP 429.

  const ApiMaxRetries: nat := 3
  const RateLimitSleep: nat := 60
  const TooManyRequests: int := 429

  /** One `requests.get`: a response with its status code, or a
      `RequestException`. */
  datatype HttpOutcome = Response(status: int) | RequestError

  /** The requests made, the lengths in seconds of the sleeps taken, and the
      status of the response returned (`None` when the helper returns
      `None`). */
  datatype ApiTrace = ApiTrace(requests: nat, sleeps: seq<nat>, response: Option<int>)

  /** The run from attempt `attempt` on, the requests having the outcomes
      `outcomes`. */
  function ApiFrom(outcomes: seq<HttpOutcome>, attempt: nat): (t: ApiTrace)
    requires |outcomes| == ApiMaxRetries && attempt <= ApiMaxRetries
    ensures attempt + t.requests <= ApiMaxRetries
    ensures attempt < ApiMaxRetries ==> t.requests >= 1
    ensures forall k :: attempt <= k < attempt + t.requests - 1 ==> outcomes[k] == Response(TooManyRequests)
    ensures forall k :: 0 <= k < |t.sleeps| ==> t.sleeps[k] == RateLimitSleep
    ensures t.response.Some? ==>
      t.response.value != TooManyRequests && outcomes[attempt + t.requests - 1] == Response(t.response.value)
      && |t.sleeps| == t.requests - 1
    ensures t.response.None? && attempt < ApiMaxRetries ==>
      (outcomes[attempt + t.requests - 1] == RequestError && |t.sleeps| == t.requests - 1)
      || (attempt + t.requests == ApiMaxRetries && outcomes[ApiMaxRetries - 1] == Response(TooManyRequests)
          && |t.sleeps| == t.requests)
    decreases ApiMaxRetries - attempt
  {
    if attempt == ApiMaxRetries then ApiTrace(0, [], None)
    else
      match outcomes[attempt]
      case RequestError => ApiTrace(1, [], None)
      case Response(status) =>
        if status == TooManyRequests then
          var rest := ApiFrom(outcomes, attempt + 1);
          ApiTrace(rest.requests + 1, [RateLimitSleep] + rest.sleeps, rest.response)
        else ApiTrace(1, [], Some(status))
  }

  /** The loop of `_make_api_request` before attempt `attempt`, having made
      `requests` requests and taken `sleeps`: the run from there on completes
      the run from the start. */
  ghost predicate ApiRunFrom(outcomes: seq<HttpOutcome>, attempt: nat, requests: nat, sleeps: seq<nat>)
    requires |outcomes| == ApiMaxRetries && attempt <= ApiMaxRetries
  {
    var rest := ApiFrom(outcomes, attempt);
    ApiFrom(outcomes, 0) == ApiTrace(requests + rest.requests, sleeps + rest.sleeps, rest.response)
  }

  /** A 429 at `attempt`: one more request and one more sleep. */
  lemma ApiRetryHere(outcomes: seq<HttpOutcome>, attempt: nat, requests: nat, sleeps: seq<nat>)
    requires |outcomes| == ApiMaxRetries && attempt < ApiMaxRetries
    requires outcomes[attempt] == Response(TooManyRequests)
    requires ApiRunFrom(outcomes, attempt, requests, sleeps)
    ensures ApiRunFrom(outcomes, attempt + 1, requests + 1, sleeps + [RateLimitSleep])
  {
    var rest := ApiFrom(outcomes, attempt + 1);
    assert ApiFrom(outcomes, attempt) == ApiTrace(rest.requests + 1, [RateLimitSleep] + rest.sleeps, rest.response);
    AppendAssoc(sleeps, [RateLimitSleep], rest.sleeps);
  }

  /** `_make_api_request(url)`. */
  method MakeApiRequest(outcomes: seq<HttpOutcome>) returns (response: Option<int>, requests: nat, sleeps: seq<nat>)
    requires |outcomes| == ApiMaxRetries
    ensures ApiTrace(requests, sleeps, response) == ApiFrom(outcomes, 0)
  {
    requests, sleeps := 0, [];
    for attempt := 0 to ApiMaxRetries
      invariant requests == |sleeps| == attempt
      invariant ApiRunFrom(outcomes, attempt, requests, sleeps)
    {
      match outcomes[attempt]
      case RequestError =>
        assert sleeps + [] == sleeps;
        return None, requests + 1, sleeps;
      case Response(status) =>
        if status == TooManyRequests {
          ApiRetryHere(outcomes, attempt, requests, sleeps);
          requests, sleeps := requests + 1, sleeps + [RateLimitSleep];
        } else {
          assert sleeps + [] == sleeps;
          return Some(status), requests + 1, sleeps;
        }
    }
    assert sleeps + [] == sleeps;
    response := None;
  }

  /** Three rate-limited responses: three requests, a sleep after each of
      them (the third included), then `None`. */
  lemma ThreeRateLimits(outcomes: seq<HttpOutcome>)
    requires |outcomes| == ApiMaxRetries
    requires forall k :: 0 <= k < |outcomes| ==> outcomes[k] == Response(TooManyRequests)
    ensures ApiFrom(outcomes, 0) == ApiTrace(3, [60, 60, 60], None)
  {}

  /** A request that raises ends the helper at once, without a sleep. */
  lemma FirstRequestErrorNoRetry(outcomes: seq<HttpOutcome>)
    requires |outcomes| == ApiMaxRetries && outcomes[0] == RequestError
    ensures ApiFrom(outcomes, 0) == ApiTrace(1, [], None)
  {}

  /** Any response other than 429, whatever its status, is returned at once. */
  lemma FirstResponseReturned(outcomes: seq<HttpOutcome>, status: int)
    requires |outcomes| == ApiMaxRetries && outcomes[0] == Response(status) && status != TooManyRequests
    ensures ApiFrom(outcomes, 0) == ApiTrace(1, [], Some(status))
  {}

  // ---------------------------------------------------------------------------
  // Mode selection.

  /** `str.upper()` on one character, for every character whose upper case
      can be a letter of a strategy name: ASCII letters, the dotless i and
      the long s. */
  function UpperChar(c: char): (u: char)
    ensures 'A' <= u <= 'Z' ==> ('A' <= c <= 'Z' || 'a' <= c <= 'z' || c == '\U{131}' || c == '\U{17F}')
  {
    if 'a' <= c <= 'z' then (c as int - 32) as char
    else if c == '\U{131}' then 'I'
    else if c == '\U{17F}' then 'S'
    else c
  }

  /** `str.upper()`: a string of capitals is returned unchanged, and the
      result is already upper case, so upper-casing it again changes
      nothing. */
  function Upper(s: string): (u: string)
    ensures |u| == |s|
    ensures (forall k :: 0 <= k < |s| ==> 'A' <= s[k] <= 'Z') ==> u == s
    ensures forall k :: 0 <= k < |u| ==> UpperChar(u[k]) == u[k]
  {
    seq(|s|, k requires 0 <= k < |s| => UpperChar(s[k]))
  }

  /** `[m.upper() for m in modes if m.upper() in STRATEGIES]`. */
  function ValidModes(modes: seq<string>): (v: seq<string>)
    ensures |v| <= |modes|
    ensures forall m :: m in v <==> m in StrategyNames && exists x :: x in modes && Upper(x) == m
  {
    if modes == [] then []
    else
      var init, last := modes[..|modes| - 1], modes[|modes| - 1];
      var rest := ValidModes(init);
      assert forall x :: x in modes <==> x in init || x == last;
      if Upper(last) in StrategyNames then rest + [Upper(last)] else rest
  }

  /** Upper-casing twice is upper-casing once. */
  lemma UpperIdempotent(s: string)
    ensures Upper(Upper(s)) == Upper(s)
  {
    var u := Upper(s);
    assert forall k :: 0 <= k < |u| ==> Upper(u)[k] == UpperChar(u[k]) == u[k];
  }

  /** A mode is accepted in any mix of cases, as the strategy it names:
      every spelling of a name is valid exactly as the name itself is. */
  lemma ModeCaseIgnored(x: string)
    requires Upper(x) in StrategyNames
    ensures ValidModes([x]) == [Upper(x)] == ValidModes([Upper(x)])
  {
    assert [x][..0] == [] && [Upper(x)][..0] == [];
    UpperIdempotent(x);
  }

  /** `any("min_revenue_growth" in STRATEGIES[m]['filters'] for m in valid_modes)`. */
  function NeedsGrowth(modes: seq<string>): bool
    requires forall m :: m in modes ==> m in StrategyNames
  {
    exists m :: m in modes && StrategyFilters(m).minRevenueGrowth.Some?
  }

  /** No strategy checks growth, so the growth data is never fetched. */
  lemma NeverNeedsGrowth(modes: seq<string>)
    requires forall m :: m in modes ==> m in StrategyNames
    ensures !NeedsGrowth(modes)
  {
    forall m | m in modes ensures StrategyFilters(m).minRevenueGrowth.None? {
      NoStrategyChecksGrowth(m, FinData(None, None, None, None));
    }
  }
}
