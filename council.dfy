/** Two pieces of report assembly in the analyst council: the CIO's
    pre-filter of the scan report (`execute_portfolio_strategy`) and the red
    team's per-ticker report (`analyze_red_team`). */
module CouncilReports {
  import opened Common
  import GeminiRetry

  /** `s.splitlines()` for text whose only line break is '\n': a final '\n'
      ends the last line and does not start an empty one. */
  function Lines(s: string): (ls: seq<string>)
    ensures ls == [] <==> s == []
    ensures |ls| <= |s|
    decreases |s|
  {
    if s == [] then []
    else if '\n' !in s then [s]
    else
      var i := FirstNewline(s);
      [s[..i]] + Lines(s[i + 1..])
  }

  function FirstNewline(s: string): (i: nat)
    requires '\n' in s
    ensures i < |s| && s[i] == '\n' && '\n' !in s[..i]
  {
    if s[0] == '\n' then 0
    else
      var i := FirstNewline(s[1..]) + 1;
      assert s[..i] == [s[0]] + s[1..][..i - 1];
      i
  }

  /** No line holds a newline. */
  lemma {:induction false} LinesNoNewline(s: string)
    ensures forall k :: 0 <= k < |Lines(s)| ==> '\n' !in Lines(s)[k]
    decreases |s|
  {
    if s != [] && '\n' in s {
      var i := FirstNewline(s);
      LinesNoNewline(s[i + 1..]);
      LinesFirst(s);
      forall k | 0 <= k < |Lines(s)|
        ensures '\n' !in Lines(s)[k]
      {
        if k > 0 {
          assert Lines(s)[k] == Lines(s)[1..][k - 1];
        }
      }
    }
  }

  /** Each line followed by '\n': what the pre-filter appends per kept line. */
  function Unlines(ls: seq<string>): string {
    if ls == [] then "" else ls[0] + "\n" + Unlines(ls[1..])
  }

  lemma {:induction false} UnlinesAppend(a: seq<string>, b: seq<string>)
    ensures Unlines(a + b) == Unlines(a) + Unlines(b)
    decreases |a|
  {
    if a != [] {
      assert (a + b)[0] == a[0];
      assert (a + b)[1..] == a[1..] + b;
      UnlinesAppend(a[1..], b);
      calc {
        Unlines(a + b);
        a[0] + "\n" + Unlines(a[1..] + b);
        a[0] + "\n" + (Unlines(a[1..]) + Unlines(b));
        (a[0] + "\n" + Unlines(a[1..])) + Unlines(b);
      }
    } else {
      assert a + b == b;
    }
  }

  /** Splitting the joined lines gives the lines back. */
  lemma {:induction false} LinesUnlines(ls: seq<string>)
    requires forall k :: 0 <= k < |ls| ==> '\n' !in ls[k]
    ensures Lines(Unlines(ls)) == ls
    decreases |ls|
  {
    if ls != [] {
      var s := Unlines(ls);
      var n := |ls[0]|;
      UnlinesFirst(ls);
      assert s[..n] == ls[0] && s[n] == '\n' && s[n + 1..] == Unlines(ls[1..]);
      FirstNewlineAt(s, n);
      LinesFirst(s);
      LinesUnlines(ls[1..]);
      assert Lines(s) == [Lines(s)[0]] + Lines(s)[1..];
    }
  }

  /** The first newline is the one with no newline before it. */
  lemma {:induction false} FirstNewlineAt(s: string, n: nat)
    requires n < |s| && s[n] == '\n' && '\n' !in s[..n]
    ensures FirstNewline(s) == n
    decreases n
  {
    if n > 0 {
      assert s[..n][0] == s[0];
      assert s[1..][..n - 1] == s[..n][1..];
      FirstNewlineAt(s[1..], n - 1);
    }
  }

  /** Joining the lines gives the text back, with a final '\n' added when the
      text is not empty and does not already end with one. */
  lemma {:induction false} UnlinesLines(s: string)
    ensures Unlines(Lines(s)) == if s == [] || s[|s| - 1] == '\n' then s else s + "\n"
    decreases |s|
  {
    if s != [] && '\n' in s {
      var i := FirstNewline(s);
      var rest := s[i + 1..];
      var head := s[..i] + "\n";
      UnlinesLinesStep(s);
      assert Unlines(Lines(s)) == head + Unlines(Lines(rest)) && s == head + rest;
      UnlinesLines(rest);
      if rest == [] {
        assert s[|s| - 1] == '\n';
      } else {
        assert rest[|rest| - 1] == s[|s| - 1];
        if s[|s| - 1] != '\n' {
          AppendAssoc(head, rest, "\n");
        }
      }
    } else if s != [] {
      assert s[|s| - 1] in s;
      assert Unlines([s]) == s + "\n";
    }
  }

  /** One step of `UnlinesLines`: the first line and its newline, then the rest. */
  lemma UnlinesLinesStep(s: string)
    requires '\n' in s
    ensures var i := FirstNewline(s);
      Unlines(Lines(s)) == s[..i] + "\n" + Unlines(Lines(s[i + 1..]))
      && s == s[..i] + "\n" + s[i + 1..]
  {
    var i := FirstNewline(s);
    var ls := Lines(s);
    LinesFirst(s);
    UnlinesFirst(ls);
    SplitAtNewline(s, i);
  }

  /** The first line of `s` ends at its first newline. */
  lemma LinesFirst(s: string)
    requires '\n' in s
    ensures Lines(s) != []
    ensures Lines(s)[0] == s[..FirstNewline(s)]
    ensures Lines(s)[1..] == Lines(s[FirstNewline(s) + 1..])
  {
    var i := FirstNewline(s);
    var line, rest := s[..i], Lines(s[i + 1..]);
    assert s != [];
    assert Lines(s) == [line] + rest;
    assert ([line] + rest)[0] == line && ([line] + rest)[1..] == rest;
  }

  lemma UnlinesFirst(ls: seq<string>)
    requires ls != []
    ensures Unlines(ls) == ls[0] + "\n" + Unlines(ls[1..])
  {}

  lemma SplitAtNewline(s: string, i: nat)
    requires i < |s| && s[i] == '\n'
    ensures s == s[..i] + "\n" + s[i + 1..]
  {
    assert s == s[..i] + [s[i]] + s[i + 1..];
  }

  // ---------------------------------------------------------------------------
  // The CIO pre-filter.

  const FilterHeader := "### PRE-FILTERED DATA HIGHLIGHTS\n\n"
  const MinFilteredLength := 500
  const FallbackLength := 20000

  /** The lines the pre-filter keeps: highlights and table rows or headers. */
  predicate Highlight(line: string) {
    Contains(line, "HIT") || Contains(line, "MATCH") || Contains(line, "Score")
    || Contains(line, "|") || Contains(line, "#")
  }

  /** The highlighted lines, in their original order. */
  function Highlights(ls: seq<string>): (r: seq<string>)
    ensures |r| <= |ls|
    ensures forall l :: l in r <==> l in ls && Highlight(l)
  {
    if ls == [] then []
    else
      var rest := Highlights(ls[..|ls| - 1]);
      assert forall l :: l in ls <==> l in ls[..|ls| - 1] || l == ls[|ls| - 1];
      if Highlight(ls[|ls| - 1]) then rest + [ls[|ls| - 1]] else rest
  }

  /** The filter works line by line: the highlights of a concatenation are
      the highlights of each part, in order, and a single line is kept iff it
      is a highlight.  Together these fix the order and the multiplicity of
      the kept lines. */
  lemma {:induction false} HighlightsAppend(a: seq<string>, b: seq<string>)
    ensures Highlights(a + b) == Highlights(a) + Highlights(b)
    ensures |b| == 1 ==> Highlights(b) == if Highlight(b[0]) then b else []
    decreases |b|
  {
    if b == [] {
      assert a + b == a;
    } else {
      var init, last := b[..|b| - 1], b[|b| - 1];
      var e := if Highlight(last) then [last] else [];
      HighlightsAppend(a, init);
      assert (a + b)[..|a + b| - 1] == a + init && (a + b)[|a + b| - 1] == last;
      assert Highlights(a + b) == Highlights(a) + Highlights(init) + e;
      assert Highlights(b) == Highlights(init) + e;
      AppendAssoc(Highlights(a), Highlights(init), e);
      if |b| == 1 {
        assert init == [];
      }
    }
  }

  /** What the pre-filter hands to the CIO prompt. */
  function PreFiltered(report: string): (context: string)
    ensures (FilterHeader <= context && |context| >= MinFilteredLength)
      || (context <= report && |context| <= FallbackLength)
  {
    var filtered := FilterHeader + Unlines(Highlights(Lines(report)));
    if |filtered| < MinFilteredLength then report[..Min(|report|, FallbackLength)] else filtered
  }

  lemma KeepLine(h: seq<string>, line: string)
    ensures FilterHeader + Unlines(h + [line]) == FilterHeader + Unlines(h) + line + "\n"
  {
    UnlinesAppend(h, [line]);
    assert Unlines([line]) == line + "\n";
  }

  /** The pre-filter loop of `execute_portfolio_strategy`. */
  method PreFilter(report: string) returns (clean: string)
    ensures clean == PreFiltered(report)
  {
    clean := FilterHeader;
    var lines := Lines(report);
    for i := 0 to |lines|
      invariant clean == FilterHeader + Unlines(Highlights(lines[..i]))
    {
      assert lines[..i + 1][..i] == lines[..i];
      ghost var h := Highlights(lines[..i]);
      assert Highlights(lines[..i + 1]) == if Highlight(lines[i]) then h + [lines[i]] else h;
      if Contains(lines[i], "HIT") || Contains(lines[i], "MATCH") || Contains(lines[i], "Score")
         || Contains(lines[i], "|") || Contains(lines[i], "#") {
        KeepLine(h, lines[i]);
        clean := clean + lines[i] + "\n";
      }
    }
    assert lines[..|lines|] == lines;
    if |clean| < MinFilteredLength {
      clean := report[..Min(|report|, FallbackLength)];
    }
  }

  /** When the highlights are long enough, the pre-filtered text is the header
      followed by exactly the highlighted lines of the report, in order. */
  lemma PreFilteredKeepsHighlights(report: string)
    requires |FilterHeader + Unlines(Highlights(Lines(report)))| >= MinFilteredLength
    ensures var p := PreFiltered(report);
      |p| >= |FilterHeader| && p[..|FilterHeader|] == FilterHeader
      && Lines(p[|FilterHeader|..]) == Highlights(Lines(report))
  {
    var p := PreFiltered(report);
    var h := Highlights(Lines(report));
    assert p[|FilterHeader|..] == Unlines(h);
    LinesNoNewline(report);
    forall k | 0 <= k < |h| ensures '\n' !in h[k] {
      assert h[k] in h;
    }
    LinesUnlines(h);
  }

  /** Otherwise the report itself is used, cut to its first 20,000 characters. */
  lemma PreFilteredFallback(report: string)
    requires |FilterHeader + Unlines(Highlights(Lines(report)))| < MinFilteredLength
    ensures var p := PreFiltered(report);
      |p| == Min(|report|, FallbackLength) && p == report[..|p|]
  {}

  // ---------------------------------------------------------------------------
  // The red-team report.

  const NoKeyError := "[red]Error: GEMINI_API_KEY not found.[/red]"
  const NoTickers := "No tickers provided to vet."
  /** The header as the source file spells it: its emoji was saved as four
      Latin-1 characters. */
  const RedTeamHeader := "### \U{F0}\U{178}\U{161}\U{A9} RED TEAM DEEP DIVE REPORT\n\n"

  /** The rule that closes an analysed ticker's section. */
  const Rule := "\n\n---\n"

  predicate EndsWith(s: string, suffix: string) {
    |suffix| <= |s| && s[|s| - |suffix|..] == suffix
  }

  lemma EndsWithAppend(a: string, b: string, suffix: string)
    requires EndsWith(b, suffix)
    ensures EndsWith(a + b, suffix)
  {
    assert (a + b)[|a + b| - |suffix|..] == b[|b| - |suffix|..];
  }

  /** The section for one ticker: its heading, then the analysis and a rule,
      or the error that stopped its analysis. */
  function Section(ticker: string, r: GeminiRetry.Result): (s: string)
    ensures "#### Analysis: " + ticker + "\n" <= s
    ensures r.Returned? ==> EndsWith(s, Rule)
    ensures r.Raised? ==> EndsWith(s, "\n\n")
  {
    var head := "#### Analysis: " + ticker + "\n";
    var tail := match r
      case Returned(analysis) => analysis + Rule
      case Raised(e) => "Error analyzing " + ticker + ": " + e + "\n\n";
    EndsWithAppend(head, tail, if r.Returned? then Rule else "\n\n");
    head + tail
  }

  function Sections(tickers: seq<string>, results: seq<GeminiRetry.Result>): (s: string)
    requires |tickers| == |results|
    ensures s == "" <==> tickers == []
  {
    if |tickers| == 0 then ""
    else Section(tickers[0], results[0]) + Sections(tickers[1..], results[1..])
  }

  lemma {:induction false} SectionsAppend(ts: seq<string>, rs: seq<GeminiRetry.Result>, t: string, r: GeminiRetry.Result)
    requires |ts| == |rs|
    ensures Sections(ts + [t], rs + [r]) == Sections(ts, rs) + Section(t, r)
    decreases |ts|
  {
    if |ts| > 0 {
      assert (ts + [t])[1..] == ts[1..] + [t];
      assert (rs + [r])[1..] == rs[1..] + [r];
      SectionsAppend(ts[1..], rs[1..], t, r);
    }
  }

  lemma {:induction false} SectionsConcat(a: seq<string>, ra: seq<GeminiRetry.Result>,
                                          b: seq<string>, rb: seq<GeminiRetry.Result>)
    requires |a| == |ra| && |b| == |rb|
    ensures Sections(a + b, ra + rb) == Sections(a, ra) + Sections(b, rb)
    decreases |a|
  {
    if |a| > 0 {
      assert (a + b)[0] == a[0] && (a + b)[1..] == a[1..] + b;
      assert (ra + rb)[0] == ra[0] && (ra + rb)[1..] == ra[1..] + rb;
      SectionsConcat(a[1..], ra[1..], b, rb);
      var h := Section(a[0], ra[0]);
      assert Sections(a + b, ra + rb) == h + (Sections(a[1..], ra[1..]) + Sections(b, rb));
      AppendAssoc(h, Sections(a[1..], ra[1..]), Sections(b, rb));
    } else {
      assert a + b == b && ra + rb == rb;
    }
  }

  /** The report is the sections of the tickers before `i`, then ticker `i`'s
      own section, then the rest: one section per ticker in input order, and
      what happened to one ticker shows only in its own section. */
  lemma SectionsSplit(ts: seq<string>, rs: seq<GeminiRetry.Result>, i: nat)
    requires |ts| == |rs| && i < |ts|
    ensures Sections(ts, rs)
      == Sections(ts[..i], rs[..i]) + Section(ts[i], rs[i]) + Sections(ts[i + 1..], rs[i + 1..])
  {
    assert ts == ts[..i] + ts[i..] && rs == rs[..i] + rs[i..];
    SectionsConcat(ts[..i], rs[..i], ts[i..], rs[i..]);
    assert ts[i..][0] == ts[i] && ts[i..][1..] == ts[i + 1..];
    assert rs[i..][0] == rs[i] && rs[i..][1..] == rs[i + 1..];
    AppendAssoc(Sections(ts[..i], rs[..i]), Section(ts[i], rs[i]), Sections(ts[i + 1..], rs[i + 1..]));
  }

  lemma AppendSection(before: string, t: string, r: GeminiRetry.Result)
    ensures match r
      case Returned(a) => before + "#### Analysis: " + t + "\n" + a + "\n\n---\n" == before + Section(t, r)
      case Raised(e) => before + "#### Analysis: " + t + "\n" + "Error analyzing " + t + ": " + e + "\n\n"
                         == before + Section(t, r)
  {}

  lemma ReportStep(ts: seq<string>, rs: seq<GeminiRetry.Result>, k: nat, before: string)
    requires |ts| == |rs| && k < |ts|
    requires before == RedTeamHeader + Sections(ts[..k], rs[..k])
    ensures before + Section(ts[k], rs[k]) == RedTeamHeader + Sections(ts[..k + 1], rs[..k + 1])
  {
    assert ts[..k + 1] == ts[..k] + [ts[k]];
    assert rs[..k + 1] == rs[..k] + [rs[k]];
    SectionsAppend(ts[..k], rs[..k], ts[k], rs[k]);
    AppendAssoc(RedTeamHeader, Sections(ts[..k], rs[..k]), Section(ts[k], rs[k]));
  }

  /** `analyze_red_team(tickers)`, where `results[k]` is how the analysis of
      `tickers[k]` ends (loading the prompt or calling the service). Also
      returns how many tickers the loop announced ("Red Team Vetting"), which
      counts a ticker whose prompt failed to load as well. */
  method RedTeam(clientConfigured: bool, tickers: seq<string>, results: seq<GeminiRetry.Result>)
    returns (report: string, vetted: nat)
    requires |results| == |tickers|
    ensures !clientConfigured ==> report == NoKeyError && vetted == 0
    ensures clientConfigured && tickers == [] ==> report == NoTickers && vetted == 0
    ensures clientConfigured && tickers != [] ==>
      report == RedTeamHeader + Sections(tickers, results) && vetted == |tickers|
  {
    if !clientConfigured {
      return NoKeyError, 0;
    }
    if tickers == [] {
      return NoTickers, 0;
    }
    report := RedTeamHeader;
    vetted := 0;
    for k := 0 to |tickers|
      invariant vetted == k
      invariant report == RedTeamHeader + Sections(tickers[..k], results[..k])
    {
      ReportStep(tickers, results, k, report);
      ghost var before := report;
      report := report + "#### Analysis: " + tickers[k] + "\n";
      vetted := vetted + 1;
      match results[k]
      case Returned(analysis) =>
        report := report + analysis + "\n\n---\n";
      case Raised(e) =>
        report := report + "Error analyzing " + tickers[k] + ": " + e + "\n\n";
      AppendSection(before, tickers[k], results[k]);
    }
    assert tickers[..|tickers|] == tickers && results[..|results|] == results;
  }
}
