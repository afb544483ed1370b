/** `run_consolidated_strategies` and `save_consolidated_report`
    (`fundamentals/screener.py`): several strategies screened over one
    deduplicated universe, each symbol's financial data fetched once, the
    survivors enriched with technical fields, and each strategy's list
    ordered and cut to its top twenty.

    The services are parameters: `universe(m)` is the symbol list the
    screener endpoint returns for strategy `m` (empty on an error),
    `fetch(s)` the record `fetch_financial_data` assembles for `s` (`None`
    when a request fails), and `tech(s)` the technical fields
    `process_technicals` computes for `s` (`None` when it fails).  The thread
    pool only decides the order `order` in which the symbols' analyses
    complete. */
module Consolidated {
  import opened Common
  import opened Sorting
  import opened Screener

  /** The fields `process_technicals` adds: price, RSI, RVOL, score and
      distance from the 52-week high (formatted as text, the score as a
      number). */
  datatype TechFields = TechFields(price: string, rsi: string, rvol: string, score: int, dist52w: string)

  /** The fields written when the technicals of a symbol failed. */
  const Placeholder := TechFields("N/A", "-", "-", 0, "-")

  /** One listed stock: its filter result, with the technical fields once
      they are merged in. */
  datatype Item = Item(hit: Hit, tech: Option<TechFields>)

  // ---------------------------------------------------------------------------
  // Phase 1: the union of the strategies' universes.

  function UniverseOf(modes: seq<string>, universe: string -> seq<string>): (u: set<string>)
    ensures forall s :: s in u <==> exists m :: m in modes && s in universe(m)
  {
    if modes == [] then {}
    else
      var init, last := modes[..|modes| - 1], modes[|modes| - 1];
      assert forall m :: m in modes <==> m in init || m == last;
      UniverseOf(init, universe) + (set s | s in universe(last))
  }

  method CollectUniverse(modes: seq<string>, universe: string -> seq<string>) returns (symbols: set<string>)
    ensures symbols == UniverseOf(modes, universe)
  {
    symbols := {};
    for i := 0 to |modes|
      invariant symbols == UniverseOf(modes[..i], universe)
    {
      assert modes[..i + 1][..i] == modes[..i];
      var u := universe(modes[i]);
      if u != [] {
        symbols := symbols + (set s | s in u);
      }
    }
    assert modes[..|modes|] == modes;
  }

  // ---------------------------------------------------------------------------
  // Phase 2: each symbol's record checked against each strategy's filters.

  /** What one completed symbol adds to a strategy's list. */
  function HitOf(data: Option<FinData>, f: Filters): (hs: seq<Hit>)
    ensures |hs| <= 1
    ensures hs == [] <==> data.None? || CheckStrategyFilters(data.value, f).None?
    ensures hs != [] ==> CheckStrategyFilters(data.value, f) == Some(hs[0])
  {
    if data.None? then []
    else match CheckStrategyFilters(data.value, f)
      case Some(h) => [h]
      case None => []
  }

  /** The list of a strategy with filters `f`: the passing results, in the
      order the symbols complete. */
  function HitsOf(order: seq<string>, fetch: string -> Option<FinData>, f: Filters): (hs: seq<Hit>)
    ensures |hs| <= |order|
  {
    if order == [] then []
    else HitsOf(order[..|order| - 1], fetch, f) + HitOf(fetch(order[|order| - 1]), f)
  }

  /** The list follows the completion order: the symbols completed first
      contribute first, each symbol its own `HitOf`, at most one hit. */
  lemma {:induction false} HitsOfConcat(a: seq<string>, b: seq<string>, fetch: string -> Option<FinData>, f: Filters)
    ensures HitsOf(a + b, fetch, f) == HitsOf(a, fetch, f) + HitsOf(b, fetch, f)
    ensures |b| == 1 ==> HitsOf(b, fetch, f) == HitOf(fetch(b[0]), f)
    decreases |b|
  {
    if b == [] {
      assert a + b == a;
    } else {
      var init, last := b[..|b| - 1], b[|b| - 1];
      assert (a + b)[..|a + b| - 1] == a + init && (a + b)[|a + b| - 1] == last;
      HitsOfConcat(a, init, fetch, f);
      AppendAssoc(HitsOf(a, fetch, f), HitsOf(init, fetch, f), HitOf(fetch(last), f));
      if |b| == 1 {
        assert init == [];
      }
    }
  }

  /** A result is listed under a strategy exactly when it is the result of a
      completed symbol whose record passes the strategy's filters. */
  lemma {:induction false} HitsOfMember(order: seq<string>, fetch: string -> Option<FinData>, f: Filters, h: Hit)
    ensures h in HitsOf(order, fetch, f) <==>
      exists s :: s in order && fetch(s).Some? && CheckStrategyFilters(fetch(s).value, f) == Some(h)
    decreases |order|
  {
    if order != [] {
      var init, last := order[..|order| - 1], order[|order| - 1];
      HitsOfMember(init, fetch, f, h);
      assert forall s :: s in order <==> s in init || s == last;
    }
  }

  /** `results`: one list per distinct mode. */
  function ScreenResults(modes: seq<string>, order: seq<string>, fetch: string -> Option<FinData>)
    : (r: map<string, seq<Hit>>)
    requires forall m :: m in modes ==> m in StrategyNames
    ensures forall m :: m in r <==> m in modes
  {
    map m | m in modes :: HitsOf(order, fetch, StrategyFilters(m))
  }

  /** The loop over the completed symbols. */
  method ScreenSymbols(modes: seq<string>, order: seq<string>, fetch: string -> Option<FinData>)
    returns (results: map<string, seq<Hit>>)
    requires NoDuplicates(modes) && forall m :: m in modes ==> m in StrategyNames
    ensures results == ScreenResults(modes, order, fetch)
  {
    results := map m | m in modes :: [];
    for i := 0 to |order|
      invariant forall m :: m in results <==> m in modes
      invariant forall m :: m in modes ==> results[m] == HitsOf(order[..i], fetch, StrategyFilters(m))
    {
      assert order[..i + 1][..i] == order[..i];
      var data := fetch(order[i]);
      if data.Some? {
        results := AppendMatches(results, modes, data.value);
      }
    }
    assert order[..|order|] == order;
  }

  /** `process_symbol`'s matches appended to the lists: each mode's list
      grows by the symbol's result when it passes that mode's filters. */
  method AppendMatches(results: map<string, seq<Hit>>, modes: seq<string>, data: FinData)
    returns (r: map<string, seq<Hit>>)
    requires NoDuplicates(modes) && forall m :: m in modes ==> m in StrategyNames
    requires forall m :: m in results <==> m in modes
    ensures forall m :: m in r <==> m in modes
    ensures forall m :: m in modes ==> r[m] == results[m] + HitOf(Some(data), StrategyFilters(m))
  {
    r := results;
    for j := 0 to |modes|
      invariant forall m :: m in r <==> m in modes
      invariant forall k :: 0 <= k < j ==> r[modes[k]] == results[modes[k]] + HitOf(Some(data), StrategyFilters(modes[k]))
      invariant forall k :: j <= k < |modes| ==> r[modes[k]] == results[modes[k]]
    {
      var m := modes[j];
      var res := CheckStrategyFilters(data, StrategyFilters(m));
      assert HitOf(Some(data), StrategyFilters(m)) == if res.Some? then [res.value] else [];
      ghost var before := r;
      if res.Some? {
        r := r[m := r[m] + [res.value]];
      }
      forall k | 0 <= k < |modes| && k != j
        ensures r[modes[k]] == before[modes[k]]
      {
        if k < j { assert modes[k] != modes[j]; } else { assert modes[j] != modes[k]; }
      }
    }
    forall m | m in modes
      ensures r[m] == results[m] + HitOf(Some(data), StrategyFilters(m))
    {
      var k :| 0 <= k < |modes| && modes[k] == m;
    }
  }

  // ---------------------------------------------------------------------------
  // Phase 3: survivors, technicals and the merge.

  /** The symbols listed under any mode (the keys of `all_survivors`). */
  function SurvivorsOf(modes: seq<string>, results: map<string, seq<Hit>>): set<string> {
    set m, h | m in modes && m in results && h in results[m] :: h.symbol
  }

  /** The symbols listed under the modes, each once. */
  method Survivors(modes: seq<string>, results: map<string, seq<Hit>>) returns (survivors: seq<string>)
    requires forall m :: m in modes ==> m in results
    ensures NoDuplicates(survivors)
    ensures forall s :: s in survivors <==> s in SurvivorsOf(modes, results)
  {
    survivors := [];
    for i := 0 to |modes|
      invariant NoDuplicates(survivors)
      invariant forall s :: s in survivors <==> s in SurvivorsOf(modes[..i], results)
    {
      assert forall m :: m in modes[..i + 1] <==> m in modes[..i] || m == modes[i];
      var items := results[modes[i]];
      for j := 0 to |items|
        invariant NoDuplicates(survivors)
        invariant forall s :: s in survivors <==>
          s in SurvivorsOf(modes[..i], results) || exists k :: 0 <= k < j && items[k].symbol == s
      {
        if items[j].symbol !in survivors {
          survivors := survivors + [items[j].symbol];
        }
      }
    }
    assert modes[..|modes|] == modes;
  }

  /** `tech_data_map`: the technical fields of each survivor whose
      technicals succeeded. */
  function TechMapOf(survivors: set<string>, tech: string -> Option<TechFields>): (t: map<string, TechFields>)
    ensures forall s :: s in t <==> s in survivors && tech(s).Some?
    ensures forall s :: s in t ==> t[s] == tech(s).value
  {
    map s | s in survivors && tech(s).Some? :: tech(s).value
  }

  method TechMap(survivors: seq<string>, tech: string -> Option<TechFields>) returns (t: map<string, TechFields>)
    ensures t == TechMapOf((set s | s in survivors), tech)
  {
    t := map[];
    for i := 0 to |survivors|
      invariant t == TechMapOf((set s | s in survivors[..i]), tech)
    {
      assert forall s :: s in survivors[..i + 1] <==> s in survivors[..i] || s == survivors[i];
      var res := tech(survivors[i]);
      if res.Some? {
        t := t[survivors[i] := res.value];
      }
    }
    assert survivors[..|survivors|] == survivors;
  }

  /** The technical fields merged into a listed stock: its own, or the
      placeholders when its technicals failed. */
  function TechOf(symbol: string, techMap: map<string, TechFields>): (t: TechFields)
    ensures symbol in techMap ==> t == techMap[symbol]
    ensures symbol !in techMap ==> t.score == 0 && t.price == "N/A"
  {
    if symbol in techMap then techMap[symbol] else Placeholder
  }

  /** A strategy's list after the merge: every item carries technical fields. */
  function MergeAll(hits: seq<Hit>, techMap: map<string, TechFields>): (items: seq<Item>)
    ensures |items| == |hits|
    ensures forall k :: 0 <= k < |hits| ==> items[k].hit == hits[k] && items[k].tech.Some?
    ensures forall k :: 0 <= k < |hits| && hits[k].symbol in techMap ==>
      items[k].tech.value == techMap[hits[k].symbol]
    ensures forall k :: 0 <= k < |hits| && hits[k].symbol !in techMap ==>
      items[k].tech.value == Placeholder && items[k].tech.value.score == 0
  {
    seq(|hits|, k requires 0 <= k < |hits| => Item(hits[k], Some(TechOf(hits[k].symbol, techMap))))
  }

  /** A strategy's list before any technicals. */
  function Unmerged(hits: seq<Hit>): (items: seq<Item>)
    ensures |items| == |hits|
    ensures forall k :: 0 <= k < |hits| ==> items[k].hit == hits[k]
    ensures ReportKey(items) == NegEvEbitda
  {
    seq(|hits|, k requires 0 <= k < |hits| => Item(hits[k], None))
  }

  /** The merge loop over one strategy's list. */
  method MergeItems(hits: seq<Hit>, techMap: map<string, TechFields>) returns (items: seq<Item>)
    ensures items == MergeAll(hits, techMap)
  {
    items := [];
    for k := 0 to |hits|
      invariant items == MergeAll(hits[..k], techMap)
    {
      var sym := hits[k].symbol;
      if sym in techMap {
        items := items + [Item(hits[k], Some(techMap[sym]))];
      } else {
        items := items + [Item(hits[k], Some(Placeholder))];
      }
    }
    assert hits[..|hits|] == hits;
  }

  /** The merge loop over the modes. */
  method Merge(modes: seq<string>, hits: map<string, seq<Hit>>, techMap: map<string, TechFields>)
    returns (merged: map<string, seq<Item>>)
    requires forall m :: m in modes ==> m in hits
    ensures merged == MergedResults(modes, hits, techMap)
  {
    merged := map[];
    for i := 0 to |modes|
      invariant forall m :: m in merged <==> m in modes[..i]
      invariant forall m :: m in merged ==> merged[m] == MergeAll(hits[m], techMap)
    {
      assert forall m :: m in modes[..i + 1] <==> m in modes[..i] || m == modes[i];
      var items := MergeItems(hits[modes[i]], techMap);
      merged := merged[modes[i] := items];
    }
    assert modes[..|modes|] == modes;
  }

  // ---------------------------------------------------------------------------
  // The report.

  const TopN: nat := 20

  /** `x.get('Score', 0)`. */
  function ItemScore(i: Item): real {
    if i.tech.Some? then i.tech.value.score as real else 0.0
  }

  /** EV/EBITDA ascending is the stable descending order of its negation. */
  function NegEvEbitda(i: Item): real {
    -i.hit.evEbitda
  }

  /** The sort key: the score when the first item has one, else EV/EBITDA. */
  function ReportKey(items: seq<Item>): Item -> real {
    if items != [] && items[0].tech.Some? then ItemScore else NegEvEbitda
  }

  /** The first `n` elements of a descending sequence dominate the rest. */
  lemma TopDominates<T>(sorted: seq<T>, n: nat, key: T -> real)
    requires SortedDesc(sorted, key) && n <= |sorted|
    ensures multiset(sorted[..n]) <= multiset(sorted)
    ensures forall x, y :: x in sorted[..n] && y in multiset(sorted) - multiset(sorted[..n]) ==> key(x) >= key(y)
  {
    assert sorted == sorted[..n] + sorted[n..];
    assert multiset(sorted) == multiset(sorted[..n]) + multiset(sorted[n..]);
    forall x, y | x in sorted[..n] && y in multiset(sorted) - multiset(sorted[..n])
      ensures key(x) >= key(y)
    {
      assert y in sorted[n..];
      var i :| 0 <= i < n && sorted[i] == x;
      var j :| 0 <= j < |sorted| - n && sorted[n..][j] == y;
      assert sorted[n + j] == y;
    }
  }

  /** The rows written for a strategy's list: sorted, cut to the top twenty,
      and no row ranks below a stock left out. */
  function ReportRows(items: seq<Item>): (rows: seq<Item>)
    ensures |rows| == Min(|items|, TopN)
    ensures SortedDesc(rows, ReportKey(items))
    ensures multiset(rows) <= multiset(items)
    ensures forall x, y :: x in rows && y in multiset(items) - multiset(rows) ==>
      ReportKey(items)(x) >= ReportKey(items)(y)
  {
    var sorted := SortDesc(items, ReportKey(items));
    var n := Min(|sorted|, TopN);
    TopDominates(sorted, n, ReportKey(items));
    sorted[..n]
  }

  /** One strategy's part of the report: its name and the rows written
      (none when its list is empty). */
  datatype Section = Section(mode: string, rows: seq<Item>)

  function Report(modes: seq<string>, results: map<string, seq<Item>>): (r: seq<Section>)
    requires forall m :: m in modes ==> m in results
    ensures |r| == |modes|
    ensures forall k :: 0 <= k < |r| ==>
      (r[k].mode == modes[k]
       && |r[k].rows| == Min(|results[modes[k]]|, TopN)
       && SortedDesc(r[k].rows, ReportKey(results[modes[k]]))
       && multiset(r[k].rows) <= multiset(results[modes[k]]))
  {
    seq(|modes|, k requires 0 <= k < |modes| => Section(modes[k], ReportRows(results[modes[k]])))
  }

  // ---------------------------------------------------------------------------
  // The whole run.

  datatype RunOutcome = NoValidModes | NoApiKey | NoCandidates | Saved(report: seq<Section>)

  function MergedResults(modes: seq<string>, hits: map<string, seq<Hit>>, techMap: map<string, TechFields>)
    : (r: map<string, seq<Item>>)
    requires forall m :: m in modes ==> m in hits
    ensures forall m :: m in r <==> m in modes
  {
    map m | m in modes :: MergeAll(hits[m], techMap)
  }

  function UnmergedResults(modes: seq<string>, hits: map<string, seq<Hit>>): (r: map<string, seq<Item>>)
    requires forall m :: m in modes ==> m in hits
    ensures forall m :: m in r <==> m in modes
  {
    map m | m in modes :: Unmerged(hits[m])
  }

  /** The lists the report is written from: merged with the technicals,
      or as screened when no stock survived. */
  function FinalResults(modes: seq<string>, order: seq<string>, fetch: string -> Option<FinData>,
                        tech: string -> Option<TechFields>): (r: map<string, seq<Item>>)
    requires forall m :: m in modes ==> m in StrategyNames
    ensures forall m :: m in r <==> m in modes
  {
    var distinct := Dedup(modes);
    var hits := ScreenResults(distinct, order, fetch);
    var survivors := SurvivorsOf(distinct, hits);
    if survivors == {} then UnmergedResults(distinct, hits)
    else MergedResults(distinct, hits, TechMapOf(survivors, tech))
  }

  /** The saved report of a run that found candidates: one section per
      distinct mode, in the order the modes first occur. */
  function ConsolidatedReport(modes: seq<string>, order: seq<string>, fetch: string -> Option<FinData>,
                              tech: string -> Option<TechFields>): (r: seq<Section>)
    requires forall m :: m in modes ==> m in StrategyNames
    ensures forall j, k :: 0 <= j < k < |r| ==> r[j].mode != r[k].mode
    ensures forall k :: 0 <= k < |r| ==> r[k].mode in modes
    ensures forall m :: m in modes ==> exists k :: 0 <= k < |r| && r[k].mode == m
    ensures |r| == |Dedup(modes)| && forall k :: 0 <= k < |r| ==> r[k].mode == Dedup(modes)[k]
  {
    Report(Dedup(modes), FinalResults(modes, order, fetch, tech))
  }

  /** `run_consolidated_strategies(modes)`. */
  method RunConsolidated(modes: seq<string>, apiKey: bool, universe: string -> seq<string>,
                         order: seq<string>, fetch: string -> Option<FinData>,
                         tech: string -> Option<TechFields>)
    returns (outcome: RunOutcome)
    requires NoDuplicates(order)
    requires forall s :: s in order <==> s in UniverseOf(ValidModes(modes), universe)
    ensures ValidModes(modes) == [] ==> outcome == NoValidModes
    ensures ValidModes(modes) != [] && !apiKey ==> outcome == NoApiKey
    ensures ValidModes(modes) != [] && apiKey && UniverseOf(ValidModes(modes), universe) == {} ==>
      outcome == NoCandidates
    ensures ValidModes(modes) != [] && apiKey && UniverseOf(ValidModes(modes), universe) != {} ==>
      outcome == Saved(ConsolidatedReport(ValidModes(modes), order, fetch, tech))
  {
    var valid := ValidModes(modes);
    if valid == [] {
      return NoValidModes;
    }
    if !apiKey {
      return NoApiKey;
    }
    var symbols := CollectUniverse(valid, universe);
    if symbols == {} {
      return NoCandidates;
    }
    var report := ScreenAndReport(valid, order, fetch, tech);
    return Saved(report);
  }

  /** Phases 2 and 3 and the saved report, for the valid modes. */
  method ScreenAndReport(valid: seq<string>, order: seq<string>, fetch: string -> Option<FinData>,
                         tech: string -> Option<TechFields>)
    returns (report: seq<Section>)
    requires forall m :: m in valid ==> m in StrategyNames
    ensures report == ConsolidatedReport(valid, order, fetch, tech)
  {
    var distinct := Dedup(valid);
    var results := ScreenSymbols(distinct, order, fetch);
    var survivors := Survivors(distinct, results);
    var final;
    if survivors == [] {
      assert SurvivorsOf(distinct, results) == {};
      final := UnmergedResults(distinct, results);
    } else {
      var techMap := TechMap(survivors, tech);
      assert (set s | s in survivors) == SurvivorsOf(distinct, results);
      assert survivors[0] in SurvivorsOf(distinct, results);
      assert techMap == TechMapOf(SurvivorsOf(distinct, results), tech);
      final := Merge(distinct, results, techMap);
    }
    assert final == FinalResults(valid, order, fetch, tech);
    report := Report(distinct, final);
  }

  // ---------------------------------------------------------------------------
  // Properties of a run.

  /** With no survivors every strategy's list is empty, so a report written
      without technicals has no rows: the EV/EBITDA ordering is never used
      by a run. */
  lemma NoSurvivorsNoRows(modes: seq<string>, hits: map<string, seq<Hit>>)
    requires forall m :: m in modes ==> m in hits
    requires SurvivorsOf(modes, hits) == {}
    ensures forall k :: 0 <= k < |modes| ==> Report(modes, UnmergedResults(modes, hits))[k].rows == []
  {
    forall k | 0 <= k < |modes|
      ensures hits[modes[k]] == []
    {
      ListedSurvives(modes, hits, modes[k]);
    }
  }

  /** The first stock of a non-empty list is a survivor. */
  lemma ListedSurvives(modes: seq<string>, hits: map<string, seq<Hit>>, m: string)
    requires m in modes && m in hits
    ensures hits[m] != [] ==> hits[m][0].symbol in SurvivorsOf(modes, hits)
  {
    if hits[m] != [] {
      assert hits[m][0] in hits[m];
    }
  }

  /** After the merge, every reported row carries technical fields and the
      rows are ordered by score, highest first. */
  lemma MergedRowsByScore(hits: seq<Hit>, techMap: map<string, TechFields>)
    ensures var rows := ReportRows(MergeAll(hits, techMap));
      (forall i :: i in rows ==> i.tech.Some?)
      && SortedDesc(rows, ItemScore)
  {
    var items := MergeAll(hits, techMap);
    var rows := ReportRows(items);
    forall i | i in rows ensures i.tech.Some? {
      assert i in multiset(items);
    }
    if items != [] {
      assert ReportKey(items) == ItemScore;
    }
  }

  /** A symbol that completes with a record passing a strategy's filters is
      listed under that strategy, and only such symbols are. */
  lemma ListedIffPasses(modes: seq<string>, order: seq<string>, fetch: string -> Option<FinData>,
                        m: string, h: Hit)
    requires forall x :: x in modes ==> x in StrategyNames
    requires m in modes
    ensures h in ScreenResults(modes, order, fetch)[m] <==>
      exists s :: s in order && fetch(s).Some? && CheckStrategyFilters(fetch(s).value, StrategyFilters(m)) == Some(h)
  {
    HitsOfMember(order, fetch, StrategyFilters(m), h);
  }

  /** End to end: every row of the saved report is the hit of a screened
      symbol whose record passes the filters of the row's strategy. */
  lemma ReportedRowsPass(modes: seq<string>, order: seq<string>, fetch: string -> Option<FinData>,
                         tech: string -> Option<TechFields>, k: nat, row: Item)
    requires forall m :: m in modes ==> m in StrategyNames
    requires k < |ConsolidatedReport(modes, order, fetch, tech)|
    requires row in ConsolidatedReport(modes, order, fetch, tech)[k].rows
    ensures var m := ConsolidatedReport(modes, order, fetch, tech)[k].mode;
      exists s :: s in order && fetch(s).Some? && CheckStrategyFilters(fetch(s).value, StrategyFilters(m)) == Some(row.hit)
  {
    var distinct := Dedup(modes);
    var m := distinct[k];
    var results := FinalResults(modes, order, fetch, tech);
    ReportSectionRows(distinct, results, k);
    RowInList(results[m], row);
    FinalHit(modes, order, fetch, tech, m, row);
    ListedIffPasses(distinct, order, fetch, m, row.hit);
  }

  lemma ReportSectionRows(modes: seq<string>, results: map<string, seq<Item>>, k: nat)
    requires forall m :: m in modes ==> m in results
    requires k < |modes|
    ensures Report(modes, results)[k].rows == ReportRows(results[modes[k]])
  {}

  lemma RowInList(items: seq<Item>, row: Item)
    requires row in ReportRows(items)
    ensures row in items
  {
    assert row in multiset(ReportRows(items));
  }

  /** A row of the lists the report is written from carries a screened hit. */
  lemma FinalHit(modes: seq<string>, order: seq<string>, fetch: string -> Option<FinData>,
                 tech: string -> Option<TechFields>, m: string, row: Item)
    requires forall x :: x in modes ==> x in StrategyNames
    requires m in Dedup(modes)
    requires row in FinalResults(modes, order, fetch, tech)[m]
    ensures row.hit in ScreenResults(Dedup(modes), order, fetch)[m]
  {
    var items := FinalResults(modes, order, fetch, tech)[m];
    var hits := ScreenResults(Dedup(modes), order, fetch)[m];
    assert |items| == |hits| && forall i :: 0 <= i < |items| ==> items[i].hit == hits[i];
    var i :| 0 <= i < |items| && items[i] == row;
  }
}
