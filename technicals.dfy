/** Breakout scoring (`stocks_international/technicals.py`): rolling-window
    indicators over a daily price and volume history, and the 0-100 score of
    the latest row.

    Prices and volumes are exact reals.  A pandas value that is NaN (a rolling
    window that has not filled yet, a 0/0 ratio) is `None`; every comparison
    with NaN is false, which is what `Above` and `AtLeast` say. */
module Technicals {
  import opened Common

  /** One row of the downloaded history. */
  datatype Bar = Bar(high: real, close: real, volume: real)

  /** One row of the frame `calculate_technicals` returns: the input columns
      and the indicators the score reads. */
  datatype Row = Row(high: real, close: real, volume: real,
                     high52: Option<real>, sma20: Option<real>, sma50: Option<real>,
                     avgVolume20: Option<real>, rvol: Option<real>, rsi: Option<real>)

  const YearWindow := 252
  const ShortWindow := 20
  const LongWindow := 50
  const RsiWindow := 14

  function Highs(bars: seq<Bar>): (xs: seq<real>)
    ensures |xs| == |bars| && forall k :: 0 <= k < |bars| ==> xs[k] == bars[k].high
  {
    seq(|bars|, k requires 0 <= k < |bars| => bars[k].high)
  }

  function Closes(bars: seq<Bar>): (xs: seq<real>)
    ensures |xs| == |bars| && forall k :: 0 <= k < |bars| ==> xs[k] == bars[k].close
  {
    seq(|bars|, k requires 0 <= k < |bars| => bars[k].close)
  }

  function Volumes(bars: seq<Bar>): (xs: seq<real>)
    ensures |xs| == |bars| && forall k :: 0 <= k < |bars| ==> xs[k] == bars[k].volume
  {
    seq(|bars|, k requires 0 <= k < |bars| => bars[k].volume)
  }

  function MaxOf(s: seq<real>): (m: real)
    requires s != []
    ensures forall k :: 0 <= k < |s| ==> s[k] <= m
    ensures exists k :: 0 <= k < |s| && s[k] == m
  {
    if |s| == 1 then s[0]
    else
      var m := MaxOf(s[1..]);
      assert forall k :: 1 <= k < |s| ==> s[k] == s[1..][k - 1];
      if s[0] >= m then s[0] else m
  }

  function SumOf(s: seq<real>): real {
    if s == [] then 0.0 else s[0] + SumOf(s[1..])
  }

  /** A sum of terms that all lie in [lo, hi] lies in [|s|·lo, |s|·hi]. */
  lemma {:induction false} SumBounds(s: seq<real>, lo: real, hi: real)
    requires forall k :: 0 <= k < |s| ==> lo <= s[k] <= hi
    ensures |s| as real * lo <= SumOf(s) <= |s| as real * hi
    decreases |s|
  {
    if s != [] {
      assert forall k :: 0 <= k < |s[1..]| ==> s[1..][k] == s[k + 1];
      SumBounds(s[1..], lo, hi);
    }
  }

  /** The `w` values ending at row `i`. */
  function Window(xs: seq<real>, i: nat, w: nat): (win: seq<real>)
    requires 0 < w <= i + 1 <= |xs|
    ensures |win| == w && forall k :: 0 <= k < w ==> win[k] == xs[i + 1 - w + k]
  {
    xs[i + 1 - w..i + 1]
  }

  /** `xs.rolling(window=w).max()` at row `i`: undefined until the window fills,
      then the largest of the last `w` values. */
  function RollingMax(xs: seq<real>, i: nat, w: nat): (r: Option<real>)
    requires i < |xs| && 0 < w
    ensures r.Some? <==> i + 1 >= w
    ensures r.Some? ==> forall k :: i + 1 - w <= k <= i ==> xs[k] <= r.value
    ensures r.Some? ==> exists k :: i + 1 - w <= k <= i && xs[k] == r.value
  {
    if i + 1 < w then None
    else
      var win := Window(xs, i, w);
      var m := MaxOf(win);
      assert forall k :: i + 1 - w <= k <= i ==> xs[k] == win[k - (i + 1 - w)];
      Some(m)
  }

  /** `xs.rolling(window=w).mean()` at row `i`. */
  function RollingMean(xs: seq<real>, i: nat, w: nat): (r: Option<real>)
    requires i < |xs| && 0 < w
    ensures r.Some? <==> i + 1 >= w
    ensures r.Some? && (forall k :: 0 <= k < |xs| ==> xs[k] >= 0.0) ==> r.value >= 0.0
  {
    if i + 1 < w then None
    else
      var win := Window(xs, i, w);
      if forall k :: 0 <= k < |xs| ==> xs[k] >= 0.0 then
        SumBounds(win, 0.0, MaxOf(win));
        DivBounds(SumOf(win), w as real, 0.0, MaxOf(win));
        Some(SumOf(win) / w as real)
      else Some(SumOf(win) / w as real)
  }

  /** A defined rolling mean lies between any bounds of its window. */
  lemma MeanBounds(xs: seq<real>, i: nat, w: nat, lo: real, hi: real)
    requires i < |xs| && 0 < w <= i + 1
    requires forall k :: i + 1 - w <= k <= i ==> lo <= xs[k] <= hi
    ensures lo <= RollingMean(xs, i, w).value <= hi
  {
    var win := Window(xs, i, w);
    SumBounds(win, lo, hi);
    var n := w as real;
    var s := SumOf(win);
    assert n * lo <= s <= n * hi;
    assert s / n == RollingMean(xs, i, w).value;
    DivBounds(s, n, lo, hi);
  }

  lemma DivBounds(s: real, n: real, lo: real, hi: real)
    requires n > 0.0 && n * lo <= s <= n * hi
    ensures lo <= s / n <= hi
  {
    assert s / n * n == s;
  }

  /** Row `k` of `delta.where(delta > 0, 0)`: the rise of the close, 0 on the
      first row, whose difference is NaN and so fails the test. */
  function Gain(closes: seq<real>, k: nat): (g: real)
    requires k < |closes|
    ensures g >= 0.0
  {
    if k == 0 then 0.0
    else if closes[k] - closes[k - 1] > 0.0 then closes[k] - closes[k - 1] else 0.0
  }

  /** Row `k` of `-delta.where(delta < 0, 0)`: the fall of the close. */
  function Loss(closes: seq<real>, k: nat): (l: real)
    requires k < |closes|
    ensures l >= 0.0
  {
    if k == 0 then 0.0
    else if closes[k] - closes[k - 1] < 0.0 then closes[k - 1] - closes[k] else 0.0
  }

  function Gains(closes: seq<real>): (gs: seq<real>)
    ensures |gs| == |closes| && forall k :: 0 <= k < |closes| ==> gs[k] == Gain(closes, k)
  {
    seq(|closes|, k requires 0 <= k < |closes| => Gain(closes, k))
  }

  function Losses(closes: seq<real>): (ls: seq<real>)
    ensures |ls| == |closes| && forall k :: 0 <= k < |closes| ==> ls[k] == Loss(closes, k)
  {
    seq(|closes|, k requires 0 <= k < |closes| => Loss(closes, k))
  }

  /** `100 - 100 / (1 + gain / loss)` for mean gains and losses: with no
      losses the ratio is +inf and the RSI 100, unless there are no gains
      either (0/0, NaN). */
  function RsiOf(g: real, l: real): (r: Option<real>)
    requires g >= 0.0 && l >= 0.0
    ensures r.None? <==> g == 0.0 && l == 0.0
    ensures r.Some? ==> 0.0 <= r.value <= 100.0
    ensures r.Some? ==> (r.value == 100.0 <==> l == 0.0)
  {
    if l == 0.0 then (if g == 0.0 then None else Some(100.0))
    else
      RatioBelow(g / l);
      Some(100.0 - 100.0 / (1.0 + g / l))
  }

  /** The 14-row RSI at row `i`; the first row's NaN difference counts as 0,
      so it is defined from the 14th row on. */
  function Rsi(closes: seq<real>, i: nat): (r: Option<real>)
    requires i < |closes|
    ensures i + 1 < RsiWindow ==> r.None?
    ensures r.Some? ==> 0.0 <= r.value <= 100.0
  {
    var g := RollingMean(Gains(closes), i, RsiWindow);
    var l := RollingMean(Losses(closes), i, RsiWindow);
    if g.None? || l.None? then None else RsiOf(g.value, l.value)
  }

  /** The RSI is below 100 exactly when the mean loss of its window is
      positive. */
  lemma RsiBelowHundred(closes: seq<real>, i: nat)
    requires RsiWindow <= i + 1 <= |closes|
    ensures Rsi(closes, i).Some? && Rsi(closes, i).value < 100.0
      <==> RollingMean(Losses(closes), i, RsiWindow).value > 0.0
  {}

  lemma RatioBelow(x: real)
    requires x >= 0.0
    ensures 0.0 <= 100.0 - 100.0 / (1.0 + x) < 100.0
  {
    var d := 1.0 + x;
    assert 100.0 / d * d == 100.0;
  }

  /** Row `i` of `calculate_technicals(df)`. */
  function RowAt(bars: seq<Bar>, i: nat): (r: Row)
    requires i < |bars|
    ensures r.high == bars[i].high && r.close == bars[i].close && r.volume == bars[i].volume
    ensures r.high52.Some? <==> i + 1 >= YearWindow
    ensures r.sma20.Some? <==> i + 1 >= ShortWindow
    ensures r.sma50.Some? <==> i + 1 >= LongWindow
    ensures r.avgVolume20.Some? <==> i + 1 >= ShortWindow
    ensures r.rvol.Some? ==> r.avgVolume20.Some? && r.rvol.value * r.avgVolume20.value == bars[i].volume
    ensures r.rsi.Some? ==> i + 1 >= RsiWindow && 0.0 <= r.rsi.value <= 100.0
  {
    var closes := Closes(bars);
    var avgVolume := RollingMean(Volumes(bars), i, ShortWindow);
    Row(bars[i].high, bars[i].close, bars[i].volume,
        RollingMax(Highs(bars), i, YearWindow),
        RollingMean(closes, i, ShortWindow),
        RollingMean(closes, i, LongWindow),
        avgVolume,
        Ratio(bars[i].volume, avgVolume),
        Rsi(closes, i))
  }

  /** `a / b` in pandas, undefined when `b` is undefined or 0.  For RVOL the
      window mean includes `a` itself, so with non-negative volumes a zero
      mean means `a` is 0 as well and pandas gives NaN. */
  function Ratio(a: real, b: Option<real>): (q: Option<real>)
    ensures q.Some? <==> b.Some? && b.value != 0.0
    ensures q.Some? ==> q.value * b.value == a
  {
    if b.None? || b.value == 0.0 then None else Some(a / b.value)
  }

  /** `calculate_technicals(df)`: a new frame with the same rows and columns
      plus the indicators; the input is not changed (it is a value). */
  function CalculateTechnicals(bars: seq<Bar>): (rows: seq<Row>)
    ensures |rows| == |bars|
    ensures forall i :: 0 <= i < |bars| ==>
      rows[i].high == bars[i].high && rows[i].close == bars[i].close && rows[i].volume == bars[i].volume
    ensures forall i :: 0 <= i < |bars| ==>
      (rows[i].high52.Some? <==> i + 1 >= YearWindow)
      && (rows[i].sma20.Some? <==> i + 1 >= ShortWindow)
      && (rows[i].sma50.Some? <==> i + 1 >= LongWindow)
      && (rows[i].avgVolume20.Some? <==> i + 1 >= ShortWindow)
      && (rows[i].rvol.Some? ==> i + 1 >= ShortWindow)
      && (rows[i].rsi.Some? ==> i + 1 >= RsiWindow)
  {
    seq(|bars|, i requires 0 <= i < |bars| => RowAt(bars, i))
  }

  /** Row `i` of the frame is the row computed at `i`. */
  lemma RowOf(bars: seq<Bar>, i: nat)
    requires i < |bars|
    ensures CalculateTechnicals(bars)[i] == RowAt(bars, i)
  {}

  /** The 52-week high at a row is the highest High of the last 252 rows. */
  lemma High52IsWindowMax(bars: seq<Bar>, i: nat)
    requires YearWindow <= i + 1 <= |bars|
    ensures var h := CalculateTechnicals(bars)[i].high52;
      h.Some?
      && (forall k :: i + 1 - YearWindow <= k <= i ==> bars[k].high <= h.value)
      && (exists k :: i + 1 - YearWindow <= k <= i && bars[k].high == h.value)
  {
    RowOf(bars, i);
    WindowMaxOfHighs(bars, i, YearWindow);
  }

  /** The rolling maximum of the Highs, read back on the bars. */
  lemma WindowMaxOfHighs(bars: seq<Bar>, i: nat, w: nat)
    requires 0 < w <= i + 1 <= |bars|
    ensures var h := RollingMax(Highs(bars), i, w);
      h.Some?
      && (forall k :: i + 1 - w <= k <= i ==> bars[k].high <= h.value)
      && (exists k :: i + 1 - w <= k <= i && bars[k].high == h.value)
  {
    var xs := Highs(bars);
    assert forall k :: i + 1 - w <= k <= i ==> xs[k] == bars[k].high;
  }

  /** With non-negative volumes the volume ratio is undefined only where the
      20-day average is: a zero average means every volume in the window,
      the latest included, is zero, and 0/0 is NaN. */
  lemma RvolUndefinedOnlyForZeroVolume(bars: seq<Bar>, i: nat)
    requires ShortWindow <= i + 1 <= |bars|
    requires forall k :: 0 <= k < |bars| ==> bars[k].volume >= 0.0
    ensures CalculateTechnicals(bars)[i].rvol.None? ==> bars[i].volume == 0.0
  {
    var vs := Volumes(bars);
    var win := Window(vs, i, ShortWindow);
    var avg := RollingMean(vs, i, ShortWindow).value;
    if avg == 0.0 && bars[i].volume > 0.0 {
      var rest := win[..ShortWindow - 1];
      assert win == rest + [bars[i].volume];
      SumSplit(rest, bars[i].volume);
      SumBounds(rest, 0.0, MaxOf(rest));
    }
  }

  lemma {:induction false} SumSplit(s: seq<real>, x: real)
    ensures SumOf(s + [x]) == SumOf(s) + x
    decreases |s|
  {
    if s == [] {
      assert SumOf([x]) == x + SumOf([]);
    } else {
      assert (s + [x])[1..] == s[1..] + [x];
      SumSplit(s[1..], x);
    }
  }

  // ---------------------------------------------------------------------------
  // The score of the latest row.

  /** A NaN-aware `a > b` and `a >= b`: false when `a` is NaN. */
  predicate Above(a: Option<real>, b: real) { a.Some? && a.value > b }
  predicate AtLeast(a: real, b: Option<real>, factor: real) { b.Some? && a >= b.value * factor }

  /** The points of the aggression score. */
  function Score(r: Row): (score: nat)
    ensures score % 10 == 0 && score <= 100
    ensures score > 60 ==> AtLeast(r.close, r.high52, 0.98)
  {
    (if AtLeast(r.close, r.high52, 0.98) then 40 else 0)
    + (if Above(r.rvol, 1.5) then 20 else 0)
    + (if Above(r.rsi, 60.0) then 10 else 0)
    + (if r.sma20.Some? && r.close > r.sma20.value then 10 else 0)
    + (if r.sma50.Some? && r.close > r.sma50.value then 10 else 0)
    + (if r.volume > 1000000.0 then 10 else 0)
  }

  /** The dictionary `analyze_breakout` returns for a frame with rows. */
  datatype Breakout = Breakout(price: real, high52: Option<real>, pctFromHigh: Option<real>,
                               isBreakingOut: bool, rvol: Option<real>, rsi: Option<real>, score: nat)

  /** How `analyze_breakout` ends: `{}`, an IndexError from `iloc[-2]`, or
      the metrics of the latest row. */
  datatype BreakoutResult = EmptyResult | IndexError | Metrics(b: Breakout)

  /** `(close - high) / high * 100`, NaN when the high is undefined or zero
      (or infinite, which only a zero high with a non-zero close gives). */
  function PctFromHigh(close: real, high: Option<real>): (pct: Option<real>)
    ensures pct.Some? <==> high.Some? && high.value != 0.0
    ensures pct.Some? ==> pct.value * high.value == (close - high.value) * 100.0
  {
    if high.None? || high.value == 0.0 then None
    else Some((close - high.value) / high.value * 100.0)
  }

  /** `analyze_breakout(df)`, with `None` standing for a missing frame. */
  function AnalyzeBreakout(df: Option<seq<Row>>): (r: BreakoutResult)
    ensures df.None? || df.value == [] <==> r == EmptyResult
    ensures df.Some? && |df.value| == 1 <==> r == IndexError
    ensures r.Metrics? ==> r.b.score == Score(df.value[|df.value| - 1])
  {
    if df.None? || df.value == [] then EmptyResult
    else if |df.value| < 2 then IndexError
    else
      var latest := df.value[|df.value| - 1];
      Metrics(Breakout(latest.close, latest.high52, PctFromHigh(latest.close, latest.high52),
                       AtLeast(latest.close, latest.high52, 0.98),
                       latest.rvol, latest.rsi, Score(latest)))
  }

  /** A score above 60 needs the breakout award, and the award is given
      exactly when the latest close is at least 98% of the 52-week high. */
  lemma HighScoreIsBreakout(bars: seq<Bar>)
    requires |bars| >= 2
    ensures var r := AnalyzeBreakout(Some(CalculateTechnicals(bars)));
      r.Metrics?
      && (r.b.isBreakingOut <==> r.b.high52.Some? && bars[|bars| - 1].close >= r.b.high52.value * 0.98)
      && (r.b.score > 60 ==> r.b.isBreakingOut)
  {}

  /** Under 252 rows the 52-week high is undefined, so there is no breakout
      and the score is at most 60. */
  lemma ShortHistoryNoBreakout(bars: seq<Bar>)
    requires 2 <= |bars| < YearWindow
    ensures var r := AnalyzeBreakout(Some(CalculateTechnicals(bars)));
      r.Metrics? && !r.b.isBreakingOut && r.b.high52.None? && r.b.score <= 60
  {
    var rows := CalculateTechnicals(bars);
    assert rows[|rows| - 1].high52.None?;
  }

  /** Under 20 rows only the RSI and liquidity awards can be given (score at
      most 20), and under 14 rows only the liquidity award (score at most 10,
      which every scanner drops). */
  lemma ShortHistoryScore(bars: seq<Bar>)
    requires 2 <= |bars| < ShortWindow
    ensures var r := AnalyzeBreakout(Some(CalculateTechnicals(bars)));
      r.Metrics? && r.b.score <= 20 && (|bars| < RsiWindow ==> r.b.score <= 10)
  {
    var rows := CalculateTechnicals(bars);
    var i := |rows| - 1;
    assert rows[i].rvol.None? && rows[i].sma20.None? && rows[i].sma50.None?;
  }

  /** For a positive 52-week high, the distance from it is non-negative
      exactly when the close is at or above it. */
  lemma PctFromHighSign(close: real, high: real)
    requires high > 0.0
    ensures PctFromHigh(close, Some(high)).Some?
    ensures PctFromHigh(close, Some(high)).value >= 0.0 <==> close >= high
  {
    var d := close - high;
    if d >= 0.0 {
      assert d / high >= 0.0;
    } else {
      assert d / high * high == d;
    }
  }
}
