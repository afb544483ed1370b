/** What the three scanners share: the market-data guard, the guard chain of
    `analyze_ticker`, and the collect-and-sort loop of `scan_tickers` /
    `scan_etfs`.

    The thread pool only decides the order in which the per-symbol analyses
    complete; the loop below takes that order as `completion`, any
    rearrangement of the submitted symbols. */
module ScanCommon {
  import opened Common
  import opened Technicals
  import opened Sorting

  /** `analyze_ticker` keeps a symbol only when its score is at least this. */
  const MinScore := 20

  /** `get_market_data` returns no frame for a history under this many rows. */
  const MinRows := 50

  /** `get_market_data(ticker)` for the downloaded history (`None` when the
      download raised): empty or short histories give no frame. */
  function GetMarketData(history: Option<seq<Bar>>): (frame: Option<seq<Bar>>)
    ensures frame.Some? <==> history.Some? && |history.value| >= MinRows
    ensures frame.Some? ==> frame.value == history.value
  {
    if history.None? || history.value == [] || |history.value| < MinRows then None else history
  }

  /** A kept analysis: the breakout metrics plus the tags the scanner adds. */
  datatype Analysis = Analysis(metrics: Breakout, ticker: string, category: Option<string>)

  /** How `analyze_ticker` ends for one symbol: a kept analysis, `None`, or an
      exception (which the scan loop swallows). */
  datatype Outcome = Kept(a: Analysis) | Skipped | Raised

  /** The guard chain of `analyze_ticker`, given the frame from the market-data
      lookup and the category tag the scanner attaches (if any). */
  function Screen(ticker: string, frame: Option<seq<Bar>>, category: Option<string>): (o: Outcome)
    ensures frame.None? ==> o == Skipped
    ensures frame.Some? && |frame.value| == 1 <==> o == Raised
    ensures o.Kept? <==>
      frame.Some? && |frame.value| >= 2
      && AnalyzeBreakout(Some(CalculateTechnicals(frame.value))).b.score >= MinScore
    ensures o.Kept? ==>
      o.a == Analysis(AnalyzeBreakout(Some(CalculateTechnicals(frame.value))).b, ticker, category)
  {
    if frame.None? then Skipped
    else
      match AnalyzeBreakout(Some(CalculateTechnicals(frame.value)))
      case EmptyResult => Skipped // `{}.get('score', 0)` is 0
      case IndexError => Raised
      case Metrics(b) => if b.score < MinScore then Skipped else Kept(Analysis(b, ticker, category))
  }

  /** Frames that come through `GetMarketData` have enough rows for
      `analyze_breakout`, so no symbol raises. */
  lemma GuardedNeverRaises(ticker: string, history: Option<seq<Bar>>, category: Option<string>)
    ensures Screen(ticker, GetMarketData(history), category) != Raised
  {}

  function ScoreKey(a: Analysis): real {
    a.metrics.score as real
  }

  /** The kept analyses of the symbols, in the given order. */
  function KeptOf(tickers: seq<string>, analyze: string -> Outcome): (r: seq<Analysis>)
    ensures |r| <= |tickers|
  {
    if tickers == [] then []
    else
      var init := tickers[..|tickers| - 1];
      var last := tickers[|tickers| - 1];
      KeptOf(init, analyze) + match analyze(last) case Kept(a) => [a] case _ => []
  }

  /** Every kept analysis is what `analyze` kept for one of the symbols. */
  lemma {:induction false} KeptOfSource(tickers: seq<string>, analyze: string -> Outcome)
    ensures forall a :: a in KeptOf(tickers, analyze) ==> exists t :: t in tickers && analyze(t) == Kept(a)
    decreases |tickers|
  {
    if tickers != [] {
      var init := tickers[..|tickers| - 1];
      KeptOfSource(init, analyze);
      assert forall t :: t in init ==> t in tickers;
    }
  }

  /** Conversely, every analysis `analyze` keeps for one of the symbols is
      among the kept analyses. */
  lemma {:induction false} KeptOfComplete(tickers: seq<string>, analyze: string -> Outcome, t: string)
    requires t in tickers && analyze(t).Kept?
    ensures analyze(t).a in KeptOf(tickers, analyze)
    decreases |tickers|
  {
    if tickers[|tickers| - 1] != t {
      SplitLast(tickers);
      KeptOfComplete(tickers[..|tickers| - 1], analyze, t);
    }
  }

  lemma {:induction false} KeptOfAppend(a: seq<string>, b: seq<string>, analyze: string -> Outcome)
    ensures KeptOf(a + b, analyze) == KeptOf(a, analyze) + KeptOf(b, analyze)
    decreases |b|
  {
    if b == [] {
      assert a + b == a;
    } else {
      var b0 := b[..|b| - 1];
      assert (a + b)[..|a + b| - 1] == a + b0;
      assert (a + b)[|a + b| - 1] == b[|b| - 1];
      KeptOfAppend(a, b0, analyze);
    }
  }

  /** The last element of `a` sits somewhere in its rearrangement `b`, and
      what is left of each is again a rearrangement. */
  lemma PermutationRemoveLast<T>(a: seq<T>, b: seq<T>) returns (i: nat)
    requires multiset(a) == multiset(b) && a != []
    ensures i < |b| && b[i] == a[|a| - 1]
    ensures multiset(a[..|a| - 1]) == multiset(b[..i] + b[i + 1..])
  {
    var init, x := a[..|a| - 1], a[|a| - 1];
    SplitLast(a);
    assert multiset(a) == multiset(init) + multiset{x};
    assert x in multiset(b);
    i :| 0 <= i < |b| && b[i] == x;
    SplitAt(b, i);
    MultisetThree(b[..i], [x], b[i + 1..]);
    assert multiset([x]) == multiset{x};
    assert multiset(b) == multiset(b[..i] + b[i + 1..]) + multiset{x};
    assert multiset(init) == multiset(a) - multiset{x};
    assert multiset(b[..i] + b[i + 1..]) == multiset(b) - multiset{x};
  }

  lemma SplitAt<T>(b: seq<T>, i: nat)
    requires i < |b|
    ensures b[..i] + [b[i]] + b[i + 1..] == b
  {}

  lemma SplitLast<T>(a: seq<T>)
    requires a != []
    ensures a[..|a| - 1] + [a[|a| - 1]] == a
  {}

  lemma KeptOfThree(u: seq<string>, x: seq<string>, w: seq<string>, analyze: string -> Outcome)
    ensures KeptOf(u + x + w, analyze) == KeptOf(u, analyze) + KeptOf(x, analyze) + KeptOf(w, analyze)
  {
    KeptOfAppend(u, x, analyze);
    KeptOfAppend(u + x, w, analyze);
  }

  lemma MultisetThree<T>(p: seq<T>, q: seq<T>, r: seq<T>)
    ensures multiset(p + q + r) == multiset(p + r) + multiset(q)
  {
    assert multiset(p + q + r) == multiset(p + q) + multiset(r);
    assert multiset(p + q) == multiset(p) + multiset(q);
    assert multiset(p + r) == multiset(p) + multiset(r);
  }

  lemma KeptOfRemove(u: seq<string>, x: string, w: seq<string>, analyze: string -> Outcome)
    ensures multiset(KeptOf(u + [x] + w, analyze))
      == multiset(KeptOf(u + w, analyze)) + multiset(KeptOf([x], analyze))
  {
    KeptOfThree(u, [x], w, analyze);
    KeptOfAppend(u, w, analyze);
    MultisetThree(KeptOf(u, analyze), KeptOf([x], analyze), KeptOf(w, analyze));
  }

  lemma KeptOfRemoveAt(b: seq<string>, i: nat, analyze: string -> Outcome)
    requires i < |b|
    ensures multiset(KeptOf(b, analyze))
      == multiset(KeptOf(b[..i] + b[i + 1..], analyze)) + multiset(KeptOf([b[i]], analyze))
  {
    SplitAt(b, i);
    KeptOfRemove(b[..i], b[i], b[i + 1..], analyze);
  }

  lemma KeptOfLast(a: seq<string>, analyze: string -> Outcome)
    requires a != []
    ensures KeptOf(a, analyze) == KeptOf(a[..|a| - 1], analyze) + KeptOf([a[|a| - 1]], analyze)
  {
    SplitLast(a);
    KeptOfAppend(a[..|a| - 1], [a[|a| - 1]], analyze);
  }

  /** Which analyses are kept does not depend on the completion order. */
  lemma {:induction false} KeptOfPermutation(a: seq<string>, b: seq<string>, analyze: string -> Outcome)
    requires multiset(a) == multiset(b)
    ensures multiset(KeptOf(a, analyze)) == multiset(KeptOf(b, analyze))
    decreases |a|
  {
    if a == [] {
      assert |b| == |multiset(b)| == 0;
    } else {
      var i := PermutationRemoveLast(a, b);
      KeptOfPermutation(a[..|a| - 1], b[..i] + b[i + 1..], analyze);
      KeptOfLast(a, analyze);
      KeptOfRemoveAt(b, i, analyze);
    }
  }

  /** The loop of `scan_tickers`: collect what each completed analysis keeps,
      swallowing `None` and exceptions, in completion order. */
  method Collect(completion: seq<string>, analyze: string -> Outcome) returns (results: seq<Analysis>)
    ensures results == KeptOf(completion, analyze)
  {
    results := [];
    for k := 0 to |completion|
      invariant results == KeptOf(completion[..k], analyze)
    {
      assert completion[..k + 1][..k] == completion[..k];
      match analyze(completion[k])
      case Kept(a) =>
        results := results + [a];
      case Skipped =>
      case Raised =>
    }
    assert completion[..|completion|] == completion;
  }

  /** `scan_tickers` after the pool: the collected results sorted by score,
      highest first. */
  method CollectAndSort(tickers: seq<string>, completion: seq<string>, analyze: string -> Outcome)
    returns (results: seq<Analysis>)
    requires multiset(completion) == multiset(tickers)
    ensures SortedDesc(results, ScoreKey)
    ensures multiset(results) == multiset(KeptOf(tickers, analyze))
    ensures |results| <= |tickers|
    ensures forall a :: a in results ==> exists t :: t in tickers && analyze(t) == Kept(a)
  {
    var collected := Collect(completion, analyze);
    KeptInAnyOrder(tickers, completion, analyze);
    results := SortDesc(collected, ScoreKey);
    assert forall a :: a in results ==> a in multiset(collected);
  }

  /** What the loop collects in completion order is, as a multiset, what the
      symbols keep in submission order, and each piece comes from a symbol. */
  lemma KeptInAnyOrder(tickers: seq<string>, completion: seq<string>, analyze: string -> Outcome)
    requires multiset(completion) == multiset(tickers)
    ensures multiset(KeptOf(completion, analyze)) == multiset(KeptOf(tickers, analyze))
    ensures |KeptOf(completion, analyze)| <= |tickers|
    ensures forall a :: a in KeptOf(completion, analyze) ==> exists t :: t in tickers && analyze(t) == Kept(a)
  {
    KeptOfSource(completion, analyze);
    KeptOfPermutation(completion, tickers, analyze);
    assert |multiset(completion)| == |multiset(tickers)|;
    forall a | a in KeptOf(completion, analyze) ensures exists t :: t in tickers && analyze(t) == Kept(a) {
      var t :| t in completion && analyze(t) == Kept(a);
      assert t in multiset(tickers);
    }
  }
}
