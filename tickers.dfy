/** Ticker extraction from free-form analyst text (`extract_tickers_from_analysis`).

    The source runs three regular expressions with `re.findall` and unions
    their captures.  Each pattern is a chain of greedy pieces whose character
    classes are pairwise disjoint, so the greedy reading below is the only way
    the pattern can match at a position; no backtracking has to be modelled.
    `findall` scans left to right and, after a match, resumes at its end. */
module TickerExtractor {
  import opened Common

  /** A symbol candidate: 2 to 6 upper-case letters A-Z (`[A-Z]{2,6}`). */
  predicate IsUpper(c: char) { 'A' <= c <= 'Z' }

  predicate ValidSymbol(t: string) {
    2 <= |t| <= 6 && forall k :: 0 <= k < |t| ==> IsUpper(t[k])
  }

  /** The character classes the three patterns use. */
  datatype CharClass = Emphasis | Digit | Space | Upper

  predicate InClass(c: char, cls: CharClass) {
    match cls
    case Emphasis => c == '*' || c == '_'
    case Digit => IsDecimalDigit(c)
    // Python's `\s` on str patterns: the characters for which str.isspace() holds.
    case Space =>
      c in {' ', '\t', '\n', '\r', '\U{0B}', '\U{0C}', '\U{1C}', '\U{1D}', '\U{1E}', '\U{1F}',
            '\U{85}', '\U{A0}', '\U{1680}', '\U{2028}', '\U{2029}', '\U{202F}', '\U{205F}', '\U{3000}'}
      || '\U{2000}' <= c <= '\U{200A}'
    case Upper => IsUpper(c)
  }

  /** Python's `\d` on str patterns: a Unicode decimal digit (general category
      Nd, Unicode 15.0).  Outside ASCII these are the blocks below, each of ten
      consecutive digits except the mathematical digits U+1D7CE..U+1D7FF. */
  predicate IsDecimalDigit(c: char) {
    '0' <= c <= '9' || (c >= '\U{660}' && NonAsciiDigit(c as int))
  }

  predicate NonAsciiDigit(n: int) {
    0x660 <= n <= 0x669 || 0x6F0 <= n <= 0x6F9 || 0x7C0 <= n <= 0x7C9 || 0x966 <= n <= 0x96F ||
    0x9E6 <= n <= 0x9EF || 0xA66 <= n <= 0xA6F || 0xAE6 <= n <= 0xAEF || 0xB66 <= n <= 0xB6F ||
    0xBE6 <= n <= 0xBEF || 0xC66 <= n <= 0xC6F || 0xCE6 <= n <= 0xCEF || 0xD66 <= n <= 0xD6F ||
    0xDE6 <= n <= 0xDEF || 0xE50 <= n <= 0xE59 || 0xED0 <= n <= 0xED9 || 0xF20 <= n <= 0xF29 ||
    0x1040 <= n <= 0x1049 || 0x1090 <= n <= 0x1099 || 0x17E0 <= n <= 0x17E9 ||
    0x1810 <= n <= 0x1819 || 0x1946 <= n <= 0x194F || 0x19D0 <= n <= 0x19D9 ||
    0x1A80 <= n <= 0x1A89 || 0x1A90 <= n <= 0x1A99 || 0x1B50 <= n <= 0x1B59 ||
    0x1BB0 <= n <= 0x1BB9 || 0x1C40 <= n <= 0x1C49 || 0x1C50 <= n <= 0x1C59 ||
    0xA620 <= n <= 0xA629 || 0xA8D0 <= n <= 0xA8D9 || 0xA900 <= n <= 0xA909 ||
    0xA9D0 <= n <= 0xA9D9 || 0xA9F0 <= n <= 0xA9F9 || 0xAA50 <= n <= 0xAA59 ||
    0xABF0 <= n <= 0xABF9 || 0xFF10 <= n <= 0xFF19 || 0x104A0 <= n <= 0x104A9 ||
    0x10D30 <= n <= 0x10D39 || 0x11066 <= n <= 0x1106F || 0x110F0 <= n <= 0x110F9 ||
    0x11136 <= n <= 0x1113F || 0x111D0 <= n <= 0x111D9 || 0x112F0 <= n <= 0x112F9 ||
    0x11450 <= n <= 0x11459 || 0x114D0 <= n <= 0x114D9 || 0x11650 <= n <= 0x11659 ||
    0x116C0 <= n <= 0x116C9 || 0x11730 <= n <= 0x11739 || 0x118E0 <= n <= 0x118E9 ||
    0x11950 <= n <= 0x11959 || 0x11C50 <= n <= 0x11C59 || 0x11D50 <= n <= 0x11D59 ||
    0x11DA0 <= n <= 0x11DA9 || 0x11F50 <= n <= 0x11F59 || 0x16A60 <= n <= 0x16A69 ||
    0x16AC0 <= n <= 0x16AC9 || 0x16B50 <= n <= 0x16B59 || 0x1D7CE <= n <= 0x1D7FF ||
    0x1E140 <= n <= 0x1E149 || 0x1E2F0 <= n <= 0x1E2F9 || 0x1E4F0 <= n <= 0x1E4F9 ||
    0x1E950 <= n <= 0x1E959 || 0x1FBF0 <= n <= 0x1FBF9
  }

  /** The end of the longest run of `cls` characters starting at `i` (a greedy `*`). */
  function RunEnd(text: string, i: nat, cls: CharClass): (j: nat)
    requires i <= |text|
    ensures i <= j <= |text|
    ensures forall k :: i <= k < j ==> InClass(text[k], cls)
    ensures j < |text| ==> !InClass(text[j], cls)
    decreases |text| - i
  {
    if i < |text| && InClass(text[i], cls) then RunEnd(text, i + 1, cls) else i
  }

  /** A greedy `c?`. */
  function Opt(text: string, i: nat, c: char): (j: nat)
    requires i <= |text|
    ensures j == i || (i < |text| && j == i + 1 && text[i] == c)
    ensures j <= |text|
  {
    if i < |text| && text[i] == c then i + 1 else i
  }

  /** One `findall` match: the captured group, where the group starts and the
      index just past the whole match. */
  datatype Match = Match(capture: string, at: nat, end: nat)

  /** A match found at `i` is well formed: it ends after `i`, within the text,
      and captures a valid symbol that occurs in the text inside the match. */
  predicate GoodMatch(text: string, i: nat, m: Match) {
    i < m.end <= |text| && ValidSymbol(m.capture)
    && i <= m.at && m.at + |m.capture| <= m.end && OccursAt(m.capture, text, m.at)
  }

  /** `([A-Z]{2,6})` at `i`: greedy, so a longer run of capitals yields its first six. */
  function Symbol(text: string, i: nat): (m: Option<Match>)
    requires i <= |text|
    ensures m.Some? ==> m.value.at == i && m.value.end == i + |m.value.capture| && GoodMatch(text, i, m.value)
    ensures m.None? <==> !(i + 1 < |text| && IsUpper(text[i]) && IsUpper(text[i + 1]))
  {
    var j := RunEnd(text, i, Upper);
    var n := if j - i < 6 then j - i else 6;
    if n < 2 then None
    else
      Some(Match(text[i..i + n], i, i + n))
  }

  /** Pattern 1 without its anchor:
      `[\*_]*\(?\d+\.\)?\s*[\*_]*\[?([A-Z]{2,6})\]?` starting at `j`. */
  function NumberedBody(text: string, j: nat): (m: Option<Match>)
    requires j <= |text|
    ensures m.Some? ==> GoodMatch(text, j, m.value)
  {
    var j1 := RunEnd(text, j, Emphasis);
    var j2 := Opt(text, j1, '(');
    var j3 := RunEnd(text, j2, Digit);
    if j3 == j2 || j3 == |text| || text[j3] != '.' then None
    else
      var j4 := Opt(text, j3 + 1, ')');
      var j5 := RunEnd(text, j4, Space);
      var j6 := RunEnd(text, j5, Emphasis);
      var j7 := Opt(text, j6, '[');
      match Symbol(text, j7)
      case None => None
      case Some(t) => Some(t.(end := Opt(text, t.end, ']')))
  }

  /** Pattern 1, `(?:^|\n)` + body, tried at position `i` of a `findall` scan:
      the `^` branch only at the start of the text, otherwise a newline at `i`. */
  function NumberedAt(text: string, i: nat): (m: Option<Match>)
    requires i < |text|
    ensures m.Some? ==> GoodMatch(text, i, m.value)
    ensures m.Some? ==> i == 0 || text[i] == '\n'
  {
    if i == 0 && NumberedBody(text, 0).Some? then NumberedBody(text, 0)
    else if text[i] == '\n' then NumberedBody(text, i + 1)
    else None
  }

  predicate HasPrefixAt(text: string, i: nat, word: string) {
    i + |word| <= |text| && text[i..i + |word|] == word
  }

  /** Pattern 2, case-sensitive:
      `THE (?:LONG|MOONSHOT):?\s*\*?\[?([A-Z]{2,6})\]?\*?` at position `i`. */
  function CallOutAt(text: string, i: nat): (m: Option<Match>)
    requires i < |text|
    ensures m.Some? ==> GoodMatch(text, i, m.value)
    ensures m.Some? ==> HasPrefixAt(text, i, "THE LONG") || HasPrefixAt(text, i, "THE MOONSHOT")
  {
    var k :=
      if HasPrefixAt(text, i, "THE LONG") then i + 8
      else if HasPrefixAt(text, i, "THE MOONSHOT") then i + 12
      else i;
    if k == i then None
    else
      var k1 := Opt(text, k, ':');
      var k2 := RunEnd(text, k1, Space);
      var k3 := Opt(text, k2, '*');
      var k4 := Opt(text, k3, '[');
      match Symbol(text, k4)
      case None => None
      case Some(t) => Some(t.(end := Opt(text, Opt(text, t.end, ']'), '*')))
  }

  /** Pattern 3: `\$([A-Z]{2,6})` at position `i`. */
  function CashtagAt(text: string, i: nat): (m: Option<Match>)
    requires i < |text|
    ensures m.Some? ==> GoodMatch(text, i, m.value) && text[i] == '$'
  {
    if text[i] == '$' then Symbol(text, i + 1) else None
  }

  datatype Pattern = Numbered | CallOut | Cashtag

  function MatchAt(p: Pattern, text: string, i: nat): (m: Option<Match>)
    requires i < |text|
    ensures m.Some? ==> GoodMatch(text, i, m.value)
  {
    match p
    case Numbered => NumberedAt(text, i)
    case CallOut => CallOutAt(text, i)
    case Cashtag => CashtagAt(text, i)
  }

  /** `re.findall(p, text[i..])` with positions kept absolute: the captures of
      the non-overlapping matches, scanning left to right. */
  function FindAll(p: Pattern, text: string, i: nat): (caps: seq<string>)
    requires i <= |text|
    ensures forall c :: c in caps ==> ValidSymbol(c)
    ensures forall c :: c in caps ==> exists k: nat :: i <= k && OccursAt(c, text, k)
    decreases |text| - i
  {
    if i == |text| then []
    else
      match MatchAt(p, text, i)
      case Some(m) => [m.capture] + FindAll(p, text, m.end)
      case None => FindAll(p, text, i + 1)
  }

  /** Common false positives the extractor rejects. */
  const StopWords: set<string> :=
    {"THE", "RSI", "USD", "INPUT", "DATA", "AI", "URL", "PDF", "LONG", "SHORT", "TO", "AND", "OR", "IF"}

  /** Every capture of the three patterns, in the order the source collects them. */
  function Captures(text: string): (caps: seq<string>)
    ensures forall c :: c in caps ==> ValidSymbol(c)
    ensures forall c :: c in caps ==> exists k: nat :: OccursAt(c, text, k)
  {
    FindAll(Numbered, text, 0) + FindAll(CallOut, text, 0) + FindAll(Cashtag, text, 0)
  }

  /** The clean-up loop: captures are already stripped and upper-case, so
      `strip()` and `upper()` leave them unchanged; only stop words are dropped. */
  function DropStopWords(ts: seq<string>): (r: seq<string>)
    ensures forall t :: t in r <==> t in ts && t !in StopWords
  {
    if ts == [] then []
    else if ts[0] in StopWords then DropStopWords(ts[1..])
    else [ts[0]] + DropStopWords(ts[1..])
  }

  /** Captures that are no stop words all pass the clean-up loop. */
  lemma {:induction false} NoStopWordsKept(ts: seq<string>)
    requires forall k :: 0 <= k < |ts| ==> ts[k] !in StopWords
    ensures DropStopWords(ts) == ts
  {
    if ts != [] {
      NoStopWordsKept(ts[1..]);
    }
  }

  /** `extract_tickers_from_analysis(text)`. */
  function ExtractTickers(text: string): (r: seq<string>)
    ensures NoDuplicates(r)
    ensures forall t :: t in r <==> t in Captures(text) && t !in StopWords
    ensures forall t :: t in r ==> ValidSymbol(t) && t !in StopWords
    ensures forall t :: t in r ==> exists k: nat :: OccursAt(t, text, k)
  {
    Dedup(DropStopWords(Captures(text)))
  }

  /** Every extracted ticker begins at a capital letter of the text. */
  lemma {:induction false} TickersStartAtCapitals(text: string, t: string)
    requires t in ExtractTickers(text)
    ensures exists k :: 0 <= k < |text| && IsUpper(text[k])
  {
    var k: nat :| OccursAt(t, text, k);
    assert text[k..k + |t|][0] == text[k];
  }

  /** Matching is case-sensitive: text without capital letters yields no ticker,
      so "the long: tsla" contributes nothing. */
  lemma {:induction false} NoCapitalsNoTickers(text: string)
    requires forall k :: 0 <= k < |text| ==> !IsUpper(text[k])
    ensures ExtractTickers(text) == []
  {
    if ExtractTickers(text) != [] {
      TickersStartAtCapitals(text, ExtractTickers(text)[0]);
    }
  }

  lemma LowerCaseCallOut()
    ensures ExtractTickers("the long: tsla") == []
  {
    var s := "the long: tsla";
    assert forall k :: 0 <= k < |s| ==> !IsUpper(s[k]);
    NoCapitalsNoTickers(s);
  }
}
/** What each pattern needs to match, and the extractor's result on the
    three shapes of text the patterns are written for. */
module TickerExamples {
  import opened Common
  import opened TickerExtractor

  /** `findall` skips a position where the pattern does not match. */
  lemma SkipOne(p: Pattern, text: string, i: nat)
    requires i < |text| && MatchAt(p, text, i).None?
    ensures FindAll(p, text, i) == FindAll(p, text, i + 1)
  {}

  /** The character a match of the pattern has to start at (besides the
      start of the text, for the numbered-item pattern). */
  function Lead(p: Pattern): char {
    match p
    case Numbered => '\n'
    case CallOut => 'T'
    case Cashtag => '$'
  }

  lemma PrefixHead(text: string, k: nat, word: string)
    requires k < |text| && |word| > 0
    ensures HasPrefixAt(text, k, word) ==> text[k] == word[0]
  {
    if HasPrefixAt(text, k, word) {
      assert text[k..k + |word|][0] == text[k];
    }
  }

  lemma NotLead(p: Pattern, text: string, k: nat)
    requires 0 < k < |text| && text[k] != Lead(p)
    ensures MatchAt(p, text, k).None?
  {
    PrefixHead(text, k, "THE LONG");
    PrefixHead(text, k, "THE MOONSHOT");
  }

  lemma NotPrefixAt(text: string, i: nat, word: string, k: nat)
    requires k < |word| && i + k < |text| && text[i + k] != word[k]
    ensures !HasPrefixAt(text, i, word)
  {
    if i + |word| <= |text| {
      assert text[i..i + |word|][k] != word[k];
    }
  }

  /** A position without the leading character is passed over. */
  lemma SkipPast(p: Pattern, text: string, i: nat)
    requires 0 < i < |text| && text[i] != Lead(p)
    ensures FindAll(p, text, i) == FindAll(p, text, i + 1)
  {
    NotLead(p, text, i);
    SkipOne(p, text, i);
  }

  /** No match can start in `[i, j)` when its leading character is absent there. */
  lemma Skip(p: Pattern, text: string, i: nat, j: nat)
    requires 0 < i <= j <= |text|
    requires Lead(p) !in text[i..j]
    ensures FindAll(p, text, i) == FindAll(p, text, j)
  {
    forall k | i <= k < j ensures text[k] != Lead(p) {
      assert text[i..j][k - i] == text[k];
    }
    SkipWithout(p, text, i, j);
  }

  /** Positions where a pattern cannot match do not change what `findall` finds. */
  lemma {:induction false} SkipWithout(p: Pattern, text: string, i: nat, j: nat)
    requires 0 < i <= j <= |text|
    requires forall k :: i <= k < j ==> text[k] != Lead(p)
    ensures FindAll(p, text, i) == FindAll(p, text, j)
    decreases j - i
  {
    if i < j {
      SkipPast(p, text, i);
      SkipWithout(p, text, i + 1, j);
    }
  }

  /** A numbered-item match needs a '.' after its digits. */
  lemma NumberedBodyNeedsDot(text: string, j: nat)
    requires j <= |text|
    ensures NumberedBody(text, j).Some? ==> exists k :: j <= k < |text| && text[k] == '.'
  {}

  /** Text without a '.' from `i` on has no numbered item there. */
  lemma {:induction false} NoDotNoNumbered(text: string, i: nat)
    requires i <= |text|
    requires forall k :: i <= k < |text| ==> text[k] != '.'
    ensures FindAll(Numbered, text, i) == []
    decreases |text| - i
  {
    if i < |text| {
      NoDotStep(text, i);
      NoDotNoNumbered(text, i + 1);
    }
  }

  lemma NoDotStep(text: string, i: nat)
    requires i < |text|
    requires forall k :: i <= k < |text| ==> text[k] != '.'
    ensures FindAll(Numbered, text, i) == FindAll(Numbered, text, i + 1)
  {
    NumberedBodyNeedsDot(text, i);
    NumberedBodyNeedsDot(text, i + 1);
    SkipOne(Numbered, text, i);
  }

  /** Both call-out keywords have a space at offset 3. */
  lemma CallOutNeedsSpace(text: string, i: nat)
    requires i < |text|
    ensures CallOutAt(text, i).Some? ==> i + 3 < |text| && text[i + 3] == ' '
  {
    if HasPrefixAt(text, i, "THE LONG") {
      assert text[i..i + 8][3] == text[i + 3];
    }
    if HasPrefixAt(text, i, "THE MOONSHOT") {
      assert text[i..i + 12][3] == text[i + 3];
    }
  }

  /** Text without a space three or more characters past `i` has no call-out there. */
  lemma {:induction false} NoSpaceNoCallOut(text: string, i: nat)
    requires i <= |text|
    requires forall k :: i + 3 <= k < |text| ==> text[k] != ' '
    ensures FindAll(CallOut, text, i) == []
    decreases |text| - i
  {
    if i < |text| {
      NoSpaceStep(text, i);
      NoSpaceNoCallOut(text, i + 1);
    }
  }

  lemma NoSpaceStep(text: string, i: nat)
    requires i < |text|
    requires forall k :: i + 3 <= k < |text| ==> text[k] != ' '
    ensures FindAll(CallOut, text, i) == FindAll(CallOut, text, i + 1)
  {
    CallOutNeedsSpace(text, i);
    SkipOne(CallOut, text, i);
  }

  /** Text without a '$' from `i` on has no cashtag there. */
  lemma {:induction false} NoDollarNoCashtag(text: string, i: nat)
    requires i <= |text|
    requires forall k :: i <= k < |text| ==> text[k] != '$'
    ensures FindAll(Cashtag, text, i) == []
    decreases |text| - i
  {
    if i < |text| {
      NoDollarStep(text, i);
      NoDollarNoCashtag(text, i + 1);
    }
  }

  lemma NoDollarStep(text: string, i: nat)
    requires i < |text| && text[i] != '$'
    ensures FindAll(Cashtag, text, i) == FindAll(Cashtag, text, i + 1)
  {
    SkipOne(Cashtag, text, i);
  }

  /** The result for a single capture: dropped when it is a stop word. */
  lemma SingleCapture(text: string, s: string)
    requires Captures(text) == [s]
    ensures ExtractTickers(text) == if s in StopWords then [] else [s]
  {
    assert DropStopWords([s]) == if s in StopWords then [] else [s];
    assert Dedup([s]) == [s];
  }

  /** A symbol at `i` that runs to the end of the text is captured whole. */
  lemma SymbolToEnd(text: string, i: nat, s: string)
    requires ValidSymbol(s) && i + |s| == |text| && text[i..] == s
    ensures Symbol(text, i) == Some(Match(s, i, |text|))
  {
    assert forall k :: i <= k < |text| ==> text[k] == s[k - i] && IsUpper(text[k]);
    assert RunEnd(text, i, Upper) == |text|;
    assert text[i..i + |s|] == s;
  }

  /** "$" followed by a symbol: a cashtag and nothing else. */
  lemma CashtagText(s: string)
    requires ValidSymbol(s)
    ensures ExtractTickers("$" + s) == if s in StopWords then [] else [s]
  {
    var text := "$" + s;
    assert text[0] == '$';
    assert forall k :: 1 <= k < |text| ==> text[k] == s[k - 1];
    NoDotNoNumbered(text, 0);
    NoSpaceNoCallOut(text, 0);
    SymbolToEnd(text, 1, s);
    assert FindAll(Cashtag, text, 0) == [s];
    SingleCapture(text, s);
  }

  /** "THE LONG: " followed by a symbol: a call-out and nothing else. */
  lemma CallOutText(s: string)
    requires ValidSymbol(s)
    ensures ExtractTickers("THE LONG: " + s) == if s in StopWords then [] else [s]
  {
    var text := "THE LONG: " + s;
    assert forall k :: 10 <= k < |text| ==> text[k] == s[k - 10];
    assert text[0] == 'T' && text[1] == 'H' && text[2] == 'E' && text[3] == ' ' && text[4] == 'L'
      && text[5] == 'O' && text[6] == 'N' && text[7] == 'G' && text[8] == ':' && text[9] == ' ';
    NoDotNoNumbered(text, 0);
    NoDollarNoCashtag(text, 0);
    assert text[10..] == s;
    CallOutItemAt0(text, s);
    SingleCapture(text, s);
  }

  lemma CallOutItemAt0(text: string, s: string)
    requires ValidSymbol(s) && |text| == 10 + |s| && text[10..] == s
    requires text[0] == 'T' && text[1] == 'H' && text[2] == 'E' && text[3] == ' ' && text[4] == 'L'
      && text[5] == 'O' && text[6] == 'N' && text[7] == 'G' && text[8] == ':' && text[9] == ' '
    ensures FindAll(CallOut, text, 0) == [s]
  {
    assert text[0..8] == "THE LONG";
    assert HasPrefixAt(text, 0, "THE LONG");
    assert Opt(text, 8, ':') == 9;
    assert IsUpper(s[0]) && text[10] == s[0];
    assert RunEnd(text, 10, Space) == 10 && RunEnd(text, 9, Space) == 10;
    assert Opt(text, 10, '*') == 10 && Opt(text, 10, '[') == 10;
    SymbolToEnd(text, 10, s);
    assert Opt(text, |text|, ']') == |text| && Opt(text, |text|, '*') == |text|;
    assert CallOutAt(text, 0) == Some(Match(s, 10, |text|));
    assert FindAll(CallOut, text, 0) == [s] + FindAll(CallOut, text, |text|);
  }

  lemma NumberedItemAt0(text: string, s: string)
    requires ValidSymbol(s) && |text| == 3 + |s| && text[3..] == s
    requires IsDecimalDigit(text[0]) && text[1] == '.' && text[2] == ' '
    ensures FindAll(Numbered, text, 0) == [s]
  {
    assert IsUpper(s[0]) && text[3] == s[0];
    assert RunEnd(text, 0, Emphasis) == 0 && Opt(text, 0, '(') == 0;
    assert RunEnd(text, 1, Digit) == 1 && RunEnd(text, 0, Digit) == 1;
    assert Opt(text, 2, ')') == 2;
    assert RunEnd(text, 3, Space) == 3 && RunEnd(text, 2, Space) == 3;
    assert RunEnd(text, 3, Emphasis) == 3 && Opt(text, 3, '[') == 3;
    SymbolToEnd(text, 3, s);
    var m := NumberedBody(text, 0);
    assert m == Some(Match(s, 3, |text|));
    assert NumberedAt(text, 0) == m;
    assert FindAll(Numbered, text, 0) == [s] + FindAll(Numbered, text, |text|);
  }

  /** A decimal digit, ". " and a symbol: a numbered item and nothing else;
      so "1. AAPL" yields AAPL while "1. AND" yields nothing.  Any Unicode
      decimal digit numbers an item, as `\d` does in Python. */
  lemma NumberedText(d: char, s: string)
    requires IsDecimalDigit(d) && ValidSymbol(s)
    ensures ExtractTickers([d] + ". " + s) == if s in StopWords then [] else [s]
  {
    var text := [d] + ". " + s;
    assert text[0] == d && text[1] == '.' && text[2] == ' ';
    assert forall k :: 3 <= k < |text| ==> text[k] == s[k - 3];
    NoSpaceNoCallOut(text, 0);
    NoDollarNoCashtag(text, 0);
    NumberedItemAt0(text, s);
    SingleCapture(text, s);
  }

  lemma IndentedItemCaptures(text: string)
    requires text == " 1. AAPL"
    ensures Captures(text) == []
  {
    assert text[0] == ' ' && RunEnd(text, 0, Digit) == 0;
    assert NumberedAt(text, 0).None? && CallOutAt(text, 0).None? && CashtagAt(text, 0).None?;
    assert '\n' !in text[1..8] && 'T' !in text[1..8] && '$' !in text[1..8];
    SkipOne(Numbered, text, 0);
    Skip(Numbered, text, 1, 8);
    SkipOne(CallOut, text, 0);
    Skip(CallOut, text, 1, 8);
    SkipOne(Cashtag, text, 0);
    Skip(Cashtag, text, 1, 8);
  }

  /** The sample text "1. [AAPL]\n2. MSFT\nTHE LONG: TSLA\n$NVDA", character by
      character (one line of the sample per line below). */
  predicate SampleChars(text: string) {
    |text| == 38
    && text[0] == '1' && text[1] == '.' && text[2] == ' ' && text[3] == '[' && text[4] == 'A' && text[5] == 'A' && text[6] == 'P' && text[7] == 'L' && text[8] == ']' && text[9] == '\n'
    && text[10] == '2' && text[11] == '.' && text[12] == ' ' && text[13] == 'M' && text[14] == 'S' && text[15] == 'F' && text[16] == 'T' && text[17] == '\n'
    && text[18] == 'T' && text[19] == 'H' && text[20] == 'E' && text[21] == ' ' && text[22] == 'L' && text[23] == 'O' && text[24] == 'N' && text[25] == 'G' && text[26] == ':' && text[27] == ' ' && text[28] == 'T' && text[29] == 'S' && text[30] == 'L' && text[31] == 'A' && text[32] == '\n'
    && text[33] == '$' && text[34] == 'N' && text[35] == 'V' && text[36] == 'D' && text[37] == 'A'
  }

  /** The literal sample text is the one `SampleChars` spells out, line by line. */
  lemma SampleCharsOf(l1: string, l2: string, l3: string, l4: string, text: string)
    requires l1 == "1. [AAPL]\n" && l2 == "2. MSFT\n" && l3 == "THE LONG: TSLA\n" && l4 == "$NVDA"
    requires text == l1 + l2 + l3 + l4
    ensures SampleChars(text)
  {
    SampleLine1(l1);
    SampleLine2(l2);
    SampleLine3(l3);
    SampleLine4(l4);
    assert forall k :: 0 <= k < 10 ==> text[k] == l1[k];
    assert forall k :: 10 <= k < 18 ==> text[k] == l2[k - 10];
    assert forall k :: 18 <= k < 33 ==> text[k] == l3[k - 18];
    assert forall k :: 33 <= k < 38 ==> text[k] == l4[k - 33];
  }

  lemma SampleLine1(l: string)
    requires l == "1. [AAPL]\n"
    ensures |l| == 10 && l[0] == '1' && l[1] == '.' && l[2] == ' ' && l[3] == '[' && l[4] == 'A'
      && l[5] == 'A' && l[6] == 'P' && l[7] == 'L' && l[8] == ']' && l[9] == '\n'
  {}

  lemma SampleLine2(l: string)
    requires l == "2. MSFT\n"
    ensures |l| == 8 && l[0] == '2' && l[1] == '.' && l[2] == ' ' && l[3] == 'M' && l[4] == 'S'
      && l[5] == 'F' && l[6] == 'T' && l[7] == '\n'
  {}

  lemma SampleLine3(l: string)
    requires l == "THE LONG: TSLA\n"
    ensures |l| == 15 && l[0] == 'T' && l[1] == 'H' && l[2] == 'E' && l[3] == ' ' && l[4] == 'L'
      && l[5] == 'O' && l[6] == 'N' && l[7] == 'G' && l[8] == ':' && l[9] == ' '
      && l[10] == 'T' && l[11] == 'S' && l[12] == 'L' && l[13] == 'A' && l[14] == '\n'
  {}

  lemma SampleLine4(l: string)
    requires l == "$NVDA"
    ensures |l| == 5 && l[0] == '$' && l[1] == 'N' && l[2] == 'V' && l[3] == 'D' && l[4] == 'A'
  {}

  /** A run of `n` capitals at `i`, ended by a non-capital, is captured whole. */
  lemma SymbolRun(text: string, i: nat, n: nat)
    requires 2 <= n <= 6 && i + n < |text| && !IsUpper(text[i + n])
    requires forall k :: i <= k < i + n ==> IsUpper(text[k])
    ensures Symbol(text, i) == Some(Match(text[i..i + n], i, i + n))
  {
    RunEndOfRun(text, i, i + n, Upper);
  }

  /** The greedy run of `cls` characters from `i` ends at `j`. */
  lemma {:induction false} RunEndOfRun(text: string, i: nat, j: nat, cls: CharClass)
    requires i <= j < |text| && !InClass(text[j], cls)
    requires forall k :: i <= k < j ==> InClass(text[k], cls)
    ensures RunEnd(text, i, cls) == j
    decreases j - i
  {
    if i < j {
      RunEndOfRun(text, i + 1, j, cls);
    }
  }

  lemma SampleAapl(text: string)
    requires SampleChars(text)
    ensures Symbol(text, 4) == Some(Match("AAPL", 4, 8))
  {
    SymbolRun(text, 4, 4);
    assert text[4..8] == "AAPL";
  }

  lemma SampleFirstItem(text: string)
    requires SampleChars(text)
    ensures NumberedAt(text, 0) == Some(Match("AAPL", 4, 9))
  {
    assert RunEnd(text, 0, Emphasis) == 0 && Opt(text, 0, '(') == 0;
    assert RunEnd(text, 1, Digit) == 1 && RunEnd(text, 0, Digit) == 1;
    assert Opt(text, 2, ')') == 2;
    assert RunEnd(text, 3, Space) == 3 && RunEnd(text, 2, Space) == 3;
    assert RunEnd(text, 3, Emphasis) == 3 && Opt(text, 3, '[') == 4;
    SampleAapl(text);
    assert Opt(text, 8, ']') == 9;
    assert NumberedBody(text, 0) == Some(Match("AAPL", 4, 9));
  }

  lemma SampleMsft(text: string)
    requires SampleChars(text)
    ensures Symbol(text, 13) == Some(Match("MSFT", 13, 17))
  {
    SymbolRun(text, 13, 4);
    assert text[13..17] == "MSFT";
  }

  lemma SampleSecondItem(text: string)
    requires SampleChars(text)
    ensures NumberedAt(text, 9) == Some(Match("MSFT", 13, 17))
  {
    assert RunEnd(text, 10, Emphasis) == 10 && Opt(text, 10, '(') == 10;
    assert RunEnd(text, 11, Digit) == 11 && RunEnd(text, 10, Digit) == 11;
    assert Opt(text, 12, ')') == 12;
    assert RunEnd(text, 13, Space) == 13 && RunEnd(text, 12, Space) == 13;
    assert RunEnd(text, 13, Emphasis) == 13 && Opt(text, 13, '[') == 13;
    SampleMsft(text);
    assert Opt(text, 17, ']') == 17;
    assert NumberedBody(text, 10) == Some(Match("MSFT", 13, 17));
  }

  /** After "MSFT" no newline of the sample is followed by a digit. */
  lemma SampleNumberedTail(text: string)
    requires SampleChars(text)
    ensures FindAll(Numbered, text, 17) == []
  {
    assert RunEnd(text, 18, Emphasis) == 18 && Opt(text, 18, '(') == 18;
    assert RunEnd(text, 18, Digit) == 18 && NumberedBody(text, 18).None?;
    assert NumberedAt(text, 17).None?;
    SkipOne(Numbered, text, 17);
    SkipWithout(Numbered, text, 18, 32);
    SampleNumberedLast(text);
  }

  /** The newline before "$NVDA" is not followed by a digit either. */
  lemma SampleNumberedLast(text: string)
    requires SampleChars(text)
    ensures FindAll(Numbered, text, 32) == []
  {
    assert RunEnd(text, 33, Emphasis) == 33 && Opt(text, 33, '(') == 33;
    assert RunEnd(text, 33, Digit) == 33 && NumberedBody(text, 33).None?;
    assert NumberedAt(text, 32).None?;
    SkipOne(Numbered, text, 32);
    SkipWithout(Numbered, text, 33, 38);
  }

  /** The numbered items of the sample text: "1. [AAPL]" at the start and
      "2. MSFT" after a newline; the newline before "THE LONG" and the one
      before "$NVDA" are not followed by a digit. */
  lemma SampleNumbered(text: string)
    requires SampleChars(text)
    ensures FindAll(Numbered, text, 0) == ["AAPL", "MSFT"]
  {
    SampleFirstItem(text);
    assert FindAll(Numbered, text, 0) == ["AAPL"] + FindAll(Numbered, text, 9);
    SampleNumberedFrom9(text);
  }

  lemma SampleNumberedFrom9(text: string)
    requires SampleChars(text)
    ensures FindAll(Numbered, text, 9) == ["MSFT"]
  {
    SampleSecondItem(text);
    assert FindAll(Numbered, text, 9) == ["MSFT"] + FindAll(Numbered, text, 17);
    SampleNumberedTail(text);
  }

  /** No call-out starts before the "T" that ends "MSFT". */
  lemma SampleCallOutSkip(text: string)
    requires SampleChars(text)
    ensures FindAll(CallOut, text, 0) == FindAll(CallOut, text, 16)
  {
    PrefixHead(text, 0, "THE LONG");
    PrefixHead(text, 0, "THE MOONSHOT");
    assert CallOutAt(text, 0).None?;
    SkipOne(CallOut, text, 0);
    SampleCallOutSkipRest(text);
  }

  lemma SampleCallOutSkipRest(text: string)
    requires SampleChars(text)
    ensures FindAll(CallOut, text, 1) == FindAll(CallOut, text, 16)
  {
    SkipWithout(CallOut, text, 1, 16);
  }

  /** The "T" of "MSFT" is followed by a newline, not by "HE". */
  lemma SampleCallOutNotAtT(text: string)
    requires SampleChars(text)
    ensures FindAll(CallOut, text, 16) == FindAll(CallOut, text, 18)
  {
    NotPrefixAt(text, 16, "THE LONG", 1);
    NotPrefixAt(text, 16, "THE MOONSHOT", 1);
    SkipOne(CallOut, text, 16);
    SkipOne(CallOut, text, 17);
  }

  lemma SampleTsla(text: string)
    requires SampleChars(text)
    ensures Symbol(text, 28) == Some(Match("TSLA", 28, 32))
  {
    SymbolRun(text, 28, 4);
    assert text[28..32] == "TSLA";
  }

  lemma SampleCallOutMatch(text: string)
    requires SampleChars(text)
    ensures CallOutAt(text, 18) == Some(Match("TSLA", 28, 32))
  {
    assert text[18..26] == "THE LONG";
    assert HasPrefixAt(text, 18, "THE LONG");
    assert Opt(text, 26, ':') == 27;
    assert RunEnd(text, 28, Space) == 28 && RunEnd(text, 27, Space) == 28;
    assert Opt(text, 28, '*') == 28 && Opt(text, 28, '[') == 28;
    SampleTsla(text);
    assert Opt(text, 32, ']') == 32 && Opt(text, 32, '*') == 32;
  }

  lemma SampleCallOutFound(text: string)
    requires SampleChars(text)
    ensures FindAll(CallOut, text, 18) == ["TSLA"] + FindAll(CallOut, text, 32)
  {
    SampleCallOutMatch(text);
  }

  lemma SampleCallOutTail(text: string)
    requires SampleChars(text)
    ensures FindAll(CallOut, text, 32) == []
  {
    SkipWithout(CallOut, text, 32, 38);
  }

  /** The one call-out of the sample text, "THE LONG: TSLA". */
  lemma SampleCallOut(text: string)
    requires SampleChars(text)
    ensures FindAll(CallOut, text, 0) == ["TSLA"]
  {
    SampleCallOutSkip(text);
    SampleCallOutNotAtT(text);
    SampleCallOutFound(text);
    SampleCallOutTail(text);
  }

  /** The one cashtag of the sample text, "$NVDA". */
  lemma SampleCashtag(text: string)
    requires SampleChars(text)
    ensures FindAll(Cashtag, text, 0) == ["NVDA"]
  {
    assert CashtagAt(text, 0).None?;
    SkipOne(Cashtag, text, 0);
    SkipWithout(Cashtag, text, 1, 33);
    assert text[34..] == "NVDA";
    SymbolToEnd(text, 34, "NVDA");
    assert CashtagAt(text, 33) == Some(Match("NVDA", 34, 38));
    assert FindAll(Cashtag, text, 33) == ["NVDA"] + FindAll(Cashtag, text, 38);
  }

  lemma SampleCaptures(text: string)
    requires SampleChars(text)
    ensures Captures(text) == ["AAPL", "MSFT", "TSLA", "NVDA"]
  {
    SampleNumbered(text);
    SampleCallOut(text);
    SampleCashtag(text);
    Concat3(["AAPL", "MSFT"], ["TSLA"], ["NVDA"], Captures(text));
  }

  /** The three patterns' captures of the sample, joined in the source's order. */
  lemma Concat3(a: seq<string>, b: seq<string>, c: seq<string>, r: seq<string>)
    requires a == ["AAPL", "MSFT"] && b == ["TSLA"] && c == ["NVDA"] && r == a + b + c
    ensures r == ["AAPL", "MSFT", "TSLA", "NVDA"]
  {}

  /** The sample's captures are no stop words and all distinct. */
  lemma SampleClean(caps: seq<string>)
    requires caps == ["AAPL", "MSFT", "TSLA", "NVDA"]
    ensures Dedup(DropStopWords(caps)) == caps
  {
    SampleNoStopWords(caps);
    assert NoDuplicates(caps);
    DedupOfDistinct(caps);
  }

  lemma SampleNoStopWords(caps: seq<string>)
    requires caps == ["AAPL", "MSFT", "TSLA", "NVDA"]
    ensures DropStopWords(caps) == caps
  {
    assert "AAPL" !in StopWords && "MSFT" !in StopWords;
    assert "TSLA" !in StopWords && "NVDA" !in StopWords;
    NoStopWordsKept(caps);
  }

  /** The sample analysis text yields its four tickers: two numbered items,
      one call-out and one cashtag, each once and in that order.  The text is
      given character by character by `SampleChars`. */
  lemma SampleText(text: string)
    requires SampleChars(text)
    ensures ExtractTickers(text) == ["AAPL", "MSFT", "TSLA", "NVDA"]
  {
    SampleCaptures(text);
    SampleClean(Captures(text));
  }

  /** The same, stated on the literal sample text, written line by line. */
  lemma SampleLiteral(l1: string, l2: string, l3: string, l4: string, text: string)
    requires l1 == "1. [AAPL]\n" && l2 == "2. MSFT\n" && l3 == "THE LONG: TSLA\n" && l4 == "$NVDA"
    requires text == l1 + l2 + l3 + l4
    ensures ExtractTickers(text) == ["AAPL", "MSFT", "TSLA", "NVDA"]
  {
    SampleCharsOf(l1, l2, l3, l4, text);
    SampleText(text);
  }

  /** A numbered item whose token is a stop word yields nothing. */
  lemma NumberedStopWord()
    ensures ExtractTickers("1. AND") == []
  {
    NumberedText('1', "AND");
    assert ['1'] + ". " + "AND" == "1. AND";
  }

  /** An item numbered with an Arabic-Indic digit one is a numbered item too. */
  lemma ArabicIndicNumbered(text: string)
    requires text == ['\U{661}'] + ". " + "AAPL"
    ensures ExtractTickers(text) == ["AAPL"]
  {
    assert IsUpper('A') && IsUpper('P') && ValidSymbol("AAPL");
    NumberedText('\U{661}', "AAPL");
    assert "AAPL" !in StopWords;
  }

  /** A numbered item that does not start the text or a line is not a candidate. */
  lemma IndentedItem()
    ensures ExtractTickers(" 1. AAPL") == []
  {
    IndentedItemCaptures(" 1. AAPL");
  }
}
