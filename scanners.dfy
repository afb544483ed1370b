/** The U.S. stock scanner (`stocks_us/scanner.py`): the symbol universe, the
    per-symbol analysis and the scan.  The downloaded history of each symbol
    is the parameter `data` (`None` when the download raised). */
module UsScanner {
  import opened Common
  import opened Technicals
  import opened Sorting
  import opened ScanCommon

  /** The default "starter pack" of high-beta symbols. */
  const DefaultTickers: seq<string> := [
    "NVDA", "TSLA", "AMD", "META", "NFLX", "AMZN", "MSFT", "GOOGL", "AAPL",
    "COIN", "MSTR", "MARA", "RIOT", "CLSK",
    "SMCI", "AVGO", "ARM",
    "PLTR", "SOFI", "UPST", "AFRM", "CVNA",
    "TQQQ", "SOXL", "NVDL", "FNGU"]

  /** `get_market_tickers(scan_type)`, given the S&P 500 and Nasdaq 100 lists
      that a "full" scan downloads. */
  function GetMarketTickers(scanType: string, sp500: seq<string>, nasdaq: seq<string>): (r: seq<string>)
    ensures scanType == "full" ==>
      NoDuplicates(r) && forall t :: t in r <==> t in sp500 || t in nasdaq || t in DefaultTickers
    ensures scanType != "full" ==> r == DefaultTickers
  {
    if scanType == "full" then Dedup(sp500 + nasdaq + DefaultTickers) else DefaultTickers
  }

  /** `analyze_ticker(ticker)`: a kept analysis is tagged with its symbol and
      scores at least `MinScore`; a symbol is never reported as raising. */
  function AnalyzeTicker(ticker: string, data: string -> Option<seq<Bar>>): (o: Outcome)
    ensures o != Raised
    ensures o.Kept? ==>
      o.a.ticker == ticker && o.a.category == None && o.a.metrics.score >= MinScore
      && data(ticker).Some? && |data(ticker).value| >= MinRows
  {
    GuardedNeverRaises(ticker, data(ticker), None);
    Screen(ticker, GetMarketData(data(ticker)), None)
  }

  function Analyzer(data: string -> Option<seq<Bar>>): string -> Outcome {
    t => AnalyzeTicker(t, data)
  }

  /** `scan_tickers(tickers)`, the analyses completing in the order `completion`. */
  method ScanTickers(tickers: seq<string>, completion: seq<string>, data: string -> Option<seq<Bar>>)
    returns (results: seq<Analysis>)
    requires multiset(completion) == multiset(tickers)
    ensures SortedDesc(results, ScoreKey)
    ensures multiset(results) == multiset(KeptOf(tickers, Analyzer(data)))
    ensures forall a :: a in results ==>
      a.ticker in tickers && a.category == None && a.metrics.score >= MinScore
  {
    results := CollectAndSort(tickers, completion, Analyzer(data));
  }
}

/** The international scanner (`stocks_international/scanner.py`): the same
    scan over a fixed list of ADRs, each result tagged "International". */
module IntlScanner {
  import opened Common
  import opened Technicals
  import opened Sorting
  import opened ScanCommon

  /** `get_international_tickers()`. */
  const DefaultTickers: seq<string> := [
    "TSM", "UMC", "ASX",
    "ASML", "SAP", "STM", "ARM", "INFY",
    "BABA", "PDD", "JD", "BIDU", "TCEHY", "NIO", "XPEV", "LI",
    "NU", "MELI", "PBR", "VALE", "ITUB",
    "SHOP", "CP", "CNI", "BMO", "TD",
    "NVO", "AZN", "SNY", "NVS",
    "SHEL", "TTE", "BP", "BHP", "RIO", "SCCO",
    "SONY", "HMC", "TM", "MUFG", "SMFG", "IX"]

  /** `get_market_tickers(scan_type)`: the ADR list, whatever the scan type. */
  function GetMarketTickers(scanType: string): seq<string> {
    DefaultTickers
  }

  lemma ScanTypeIgnored(s1: string, s2: string)
    ensures GetMarketTickers(s1) == GetMarketTickers(s2) == DefaultTickers
  {}

  const Tag := "International"

  /** `analyze_ticker(ticker)`: as in the U.S. scanner, plus the category tag. */
  function AnalyzeTicker(ticker: string, data: string -> Option<seq<Bar>>): (o: Outcome)
    ensures o != Raised
    ensures o.Kept? ==>
      o.a.ticker == ticker && o.a.category == Some(Tag) && o.a.metrics.score >= MinScore
      && data(ticker).Some? && |data(ticker).value| >= MinRows
  {
    GuardedNeverRaises(ticker, data(ticker), Some(Tag));
    Screen(ticker, GetMarketData(data(ticker)), Some(Tag))
  }

  function Analyzer(data: string -> Option<seq<Bar>>): string -> Outcome {
    t => AnalyzeTicker(t, data)
  }

  /** `scan_tickers(tickers)`, the analyses completing in the order `completion`. */
  method ScanTickers(tickers: seq<string>, completion: seq<string>, data: string -> Option<seq<Bar>>)
    returns (results: seq<Analysis>)
    requires multiset(completion) == multiset(tickers)
    ensures SortedDesc(results, ScoreKey)
    ensures multiset(results) == multiset(KeptOf(tickers, Analyzer(data)))
    ensures forall a :: a in results ==>
      a.ticker in tickers && a.category == Some(Tag) && a.metrics.score >= MinScore
  {
    results := CollectAndSort(tickers, completion, Analyzer(data));
  }
}

/** The macro ETF scanner (`etfs/scanner.py`, `etfs/etf_lists.py`). */
module EtfScanner {
  import opened Common
  import opened Technicals
  import opened Sorting
  import opened ScanCommon

  const Countries: seq<string> := [
    "EWZ", "FXI", "KWEB", "INDA", "EWW", "ARGT", "EWG", "EWJ", "EWY", "TUR",
    "RSX", "EEM", "VGK", "ACWI"]

  const Commodities: seq<string> := [
    "GLD", "GDX", "SLV", "SILJ", "UNG", "USO", "XOP", "URA", "CCJ", "COPX",
    "LIT", "PALL", "CORN", "DBA"]

  const Sectors: seq<string> := [
    "XLF", "XLE", "XLK", "XLV", "XBI", "SMH", "XHB", "JETS", "IWM", "TAN",
    "ICLN", "ARKK", "IPO", "BITO"]

  const BondsYields: seq<string> := ["TLT", "TBT", "HYG", "LQD"]

  /** `ALL_ETFS`: the four lists merged without duplicates. */
  const AllEtfs: seq<string> := Dedup(Countries + Commodities + Sectors + BondsYields)

  /** The category tag: the first list, in this order, that holds the symbol. */
  function Category(ticker: string): (c: string)
    ensures c == "Country" <==> ticker in Countries
    ensures c == "Commodity" <==> ticker !in Countries && ticker in Commodities
    ensures c == "Sector" <==> ticker !in Countries + Commodities && ticker in Sectors
    ensures c == "Bond/Yield" <==> ticker !in Countries + Commodities + Sectors && ticker in BondsYields
    ensures c == "Other" <==> ticker !in Countries + Commodities + Sectors + BondsYields
  {
    if ticker in Countries then "Country"
    else if ticker in Commodities then "Commodity"
    else if ticker in Sectors then "Sector"
    else if ticker in BondsYields then "Bond/Yield"
    else "Other"
  }

  /** Only a symbol outside all four lists is tagged "Other", so no symbol of
      the ETF universe is. */
  lemma OtherOnlyOutsideLists(ticker: string)
    ensures Category(ticker) == "Other" <==> ticker !in AllEtfs
  {
    assert ticker in AllEtfs <==> ticker in Countries + Commodities + Sectors + BondsYields;
  }

  /** `analyze_ticker(ticker)` with the category tag. */
  function AnalyzeTicker(ticker: string, data: string -> Option<seq<Bar>>): (o: Outcome)
    ensures o != Raised
    ensures o.Kept? ==>
      o.a.ticker == ticker && o.a.category == Some(Category(ticker)) && o.a.metrics.score >= MinScore
      && data(ticker).Some? && |data(ticker).value| >= MinRows
  {
    GuardedNeverRaises(ticker, data(ticker), Some(Category(ticker)));
    Screen(ticker, GetMarketData(data(ticker)), Some(Category(ticker)))
  }

  function Analyzer(data: string -> Option<seq<Bar>>): string -> Outcome {
    t => AnalyzeTicker(t, data)
  }

  /** `scan_etfs()` over the ETF universe, the analyses completing in the
      order `completion`: every reported ETF carries one of the four real
      categories. */
  method ScanEtfs(completion: seq<string>, data: string -> Option<seq<Bar>>)
    returns (results: seq<Analysis>)
    requires multiset(completion) == multiset(AllEtfs)
    ensures SortedDesc(results, ScoreKey)
    ensures multiset(results) == multiset(KeptOf(AllEtfs, Analyzer(data)))
    ensures forall a :: a in results ==>
      a.ticker in AllEtfs && a.metrics.score >= MinScore
      && a.category == Some(Category(a.ticker)) && a.category != Some("Other")
  {
    results := CollectAndSort(AllEtfs, completion, Analyzer(data));
    forall a | a in results
      ensures a.category != Some("Other")
    {
      OtherOnlyOutsideLists(a.ticker);
    }
  }
}
