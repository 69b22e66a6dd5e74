/** The string and list helpers of the BSE announcement scraper
    (app/services/bse_scraper.py): the high-volatility keyword test, symbol
    extraction, date parsing, per-row normalisation, the volatility filter,
    and the content-hash dedup of the ingestion step. */
module Scraper {
  import opened Wrappers
  import opened Dates
  import opened Ranking
  import opened Text

  // ---------------------------------------------------------------- keywords

  const HighVolatilityKeywords: seq<string> := [
    "result", "quarter", "q1", "q2", "q3", "q4", "earnings", "financial",
    "order", "contract", "tender", "award", "loi", "mou",
    "merger", "acquisition", "buyback", "dividend", "bonus", "split",
    "fund raising", "qip", "fpo", "rights issue",
    "regulatory", "sebi", "approval", "license",
    "expansion", "capacity", "project", "commissioning"]

  /** `_is_high_volatility_category`; a missing field is "". */
  function IsHighVolatility(category: string, headline: string): (b: bool)
    ensures category == "" && headline == "" ==> !b
    ensures (category != "" || headline != "") ==>
      (b <==> exists k :: k in HighVolatilityKeywords && Contains(Lower(category + " " + headline), Lower(k)))
  {
    if category == "" && headline == "" then false
    else AnyKeyword(Lower(category + " " + headline), HighVolatilityKeywords)
  }

  // ---------------------------------------------------------------- symbols

  /** `\w` on ASCII text. */
  predicate IsWordChar(c: char) { IsAlnum(c) || c == '_' }

  /** The length of the run of word characters at the start of `s`. */
  function WordRun(s: string): (n: nat)
    ensures n <= |s|
    ensures forall i :: 0 <= i < n ==> IsWordChar(s[i])
    ensures n == |s| || !IsWordChar(s[n])
  {
    if s == [] || !IsWordChar(s[0]) then 0 else 1 + WordRun(s[1..])
  }

  /** Where the run of word characters at `i` ends. */
  function RunEnd(s: string, i: nat): (j: nat)
    requires i <= |s|
    ensures i <= j <= |s|
    ensures i < |s| && IsWordChar(s[i]) ==> i < j
  {
    i + WordRun(s[i..])
  }

  /** `s[a..b]` is a maximal run of word characters of `s`. */
  predicate MaximalRun(s: string, a: int, b: int) {
    && 0 <= a < b <= |s|
    && (forall k :: a <= k < b ==> IsWordChar(s[k]))
    && (a == 0 || !IsWordChar(s[a - 1]))
    && (b == |s| || !IsWordChar(s[b]))
  }

  /** The position `i` is not inside a run of word characters. */
  predicate AtBoundary(s: string, i: nat) {
    i == 0 || i >= |s| || !IsWordChar(s[i - 1]) || !IsWordChar(s[i])
  }

  /** The spans of the word-character runs that start at or after `i`. */
  function SpansFrom(s: string, i: nat): (sp: seq<(int, int)>)
    requires i <= |s| && AtBoundary(s, i)
    ensures forall k :: 0 <= k < |sp| ==> i <= sp[k].0 < sp[k].1 <= |s|
    decreases |s| - i
  {
    if i == |s| then []
    else if !IsWordChar(s[i]) then SpansFrom(s, i + 1)
    else
      var j := RunEnd(s, i);
      [(i, j)] + SpansFrom(s, j)
  }

  /** The first run of word characters from `i`, when `s[i]` is one. */
  lemma RunAt(s: string, i: nat)
    requires i < |s| && AtBoundary(s, i) && IsWordChar(s[i])
    ensures var j := RunEnd(s, i);
      && MaximalRun(s, i, j) && AtBoundary(s, j)
      && SpansFrom(s, i) == [(i, j)] + SpansFrom(s, j)
  {
    var n := WordRun(s[i..]);
    assert forall k :: i <= k < i + n ==> s[k] == s[i..][k - i];
    assert i + n < |s| ==> s[i + n] == s[i..][n];
  }

  /** Each span is a maximal run. */
  lemma {:induction false} SpansFromRuns(s: string, i: nat)
    requires i <= |s| && AtBoundary(s, i)
    ensures forall k :: 0 <= k < |SpansFrom(s, i)| ==>
      MaximalRun(s, SpansFrom(s, i)[k].0, SpansFrom(s, i)[k].1)
    decreases |s| - i
  {
    if i < |s| {
      if !IsWordChar(s[i]) {
        SpansFromRuns(s, i + 1);
      } else {
        RunAt(s, i);
        SpansFromRuns(s, RunEnd(s, i));
      }
    }
  }

  /** The spans are disjoint and left to right, with a gap between two. */
  lemma {:induction false} SpansFromOrdered(s: string, i: nat)
    requires i <= |s| && AtBoundary(s, i)
    ensures forall k, l :: 0 <= k < l < |SpansFrom(s, i)| ==> SpansFrom(s, i)[k].1 < SpansFrom(s, i)[l].0
    decreases |s| - i
  {
    if i < |s| {
      if !IsWordChar(s[i]) {
        SpansFromOrdered(s, i + 1);
      } else {
        RunAt(s, i);
        var j := RunEnd(s, i);
        SpansFromOrdered(s, j);
        SpansFromRuns(s, j);
        var rest := SpansFrom(s, j);
        forall l | 0 <= l < |rest|
          ensures j < rest[l].0
        {
          assert MaximalRun(s, rest[l].0, rest[l].1);
        }
      }
    }
  }

  /** Two maximal runs with different starts do not overlap. */
  lemma RunsApart(s: string, i: int, j: int, a: int, b: int)
    requires MaximalRun(s, i, j) && MaximalRun(s, a, b) && i < a
    ensures j < a
  {
  }

  /** A maximal run is fixed by its start. */
  lemma RunsSameStart(s: string, i: int, j: int, b: int)
    requires MaximalRun(s, i, j) && MaximalRun(s, i, b)
    ensures j == b
  {
  }

  /** Every maximal run that starts at or after `i` is a span. */
  lemma {:induction false} SpansFromComplete(s: string, i: nat, a: int, b: int)
    requires i <= |s| && AtBoundary(s, i)
    requires MaximalRun(s, a, b) && i <= a
    ensures (a, b) in SpansFrom(s, i)
    decreases |s| - i, 1
  {
    if IsWordChar(s[i]) {
      SpansFromCompleteAtWord(s, i, a, b);
    } else {
      SpansFromComplete(s, i + 1, a, b);
    }
  }

  /** The step of `SpansFromComplete` where a run starts at `i`. */
  lemma {:induction false} SpansFromCompleteAtWord(s: string, i: nat, a: int, b: int)
    requires i < |s| && AtBoundary(s, i) && IsWordChar(s[i])
    requires MaximalRun(s, a, b) && i <= a
    ensures (a, b) in SpansFrom(s, i)
    decreases |s| - i, 0
  {
    RunAt(s, i);
    var j := RunEnd(s, i);
    if a != i {
      RunsApart(s, i, j, a, b);
      SpansFromComplete(s, j, a, b);
    } else {
      RunsSameStart(s, i, j, b);
    }
  }

  /** The spans of the maximal word-character runs of `s`, left to right. */
  function WordSpans(s: string): (sp: seq<(int, int)>)
    ensures forall k :: 0 <= k < |sp| ==> MaximalRun(s, sp[k].0, sp[k].1)
    ensures forall k, l :: 0 <= k < l < |sp| ==> sp[k].1 < sp[l].0
    ensures forall a, b :: MaximalRun(s, a, b) ==> (a, b) in sp
  {
    SpansFromRuns(s, 0);
    SpansFromOrdered(s, 0);
    forall a, b | MaximalRun(s, a, b)
      ensures (a, b) in SpansFrom(s, 0)
    {
      SpansFromComplete(s, 0, a, b);
    }
    SpansFrom(s, 0)
  }

  /** `\w+` matches: the maximal runs of word characters, left to right. */
  function Words(s: string): (ws: seq<string>)
    ensures |ws| == |WordSpans(s)|
    ensures forall k :: 0 <= k < |ws| ==> ws[k] == s[WordSpans(s)[k].0..WordSpans(s)[k].1]
  {
    var sp := WordSpans(s);
    seq(|sp|, k requires 0 <= k < |sp| => s[sp[k].0..sp[k].1])
  }

  /** A whole word that `\b[A-Z]{2,20}\b` matches. */
  predicate SymbolShaped(w: string) {
    2 <= |w| <= 20 && forall i :: 0 <= i < |w| ==> IsUpperLetter(w[i])
  }

  /** `re.findall(r'\b[A-Z]{2,20}\b', text)`: the words made of 2 to 20
      capital letters, in order. */
  function Tokens(text: string): (ts: seq<string>)
    ensures forall t :: t in ts <==> t in Words(text) && SymbolShaped(t)
    ensures Subsequence(ts, Words(text))
  {
    MatchingSubsequence(Words(text));
    Matching(Words(text))
  }

  /** The words that are symbol-shaped, in order. */
  function Matching(ws: seq<string>): (ts: seq<string>)
    ensures forall t :: t in ts <==> t in ws && SymbolShaped(t)
  {
    if ws == [] then []
    else
      var init := ws[..|ws| - 1];
      var last := ws[|ws| - 1];
      assert ws == init + [last];
      Matching(init) + (if SymbolShaped(last) then [last] else [])
  }

  /** Filtering a concatenation filters each part. */
  lemma {:induction false} MatchingConcat(xs: seq<string>, ys: seq<string>)
    ensures Matching(xs + ys) == Matching(xs) + Matching(ys)
    decreases |ys|
  {
    if ys != [] {
      var init := ys[..|ys| - 1];
      var last := ys[|ys| - 1];
      MatchingConcat(xs, init);
      assert (xs + ys)[..|xs + ys| - 1] == xs + init;
      assert (xs + ys)[|xs + ys| - 1] == last;
    } else {
      assert xs + ys == xs;
    }
  }

  /** A single word is kept exactly when it is symbol-shaped. */
  lemma MatchingSingle(w: string)
    ensures Matching([w]) == if SymbolShaped(w) then [w] else []
  {
    assert [w][..0] == [];
  }

  lemma {:induction false} MatchingSubsequence(ws: seq<string>)
    ensures Subsequence(Matching(ws), ws)
  {
    if ws != [] {
      var init := ws[..|ws| - 1];
      var last := ws[|ws| - 1];
      MatchingSubsequence(init);
      assert init + [last] == ws;
      if SymbolShaped(last) {
        assert Matching(ws) == Matching(init) + [last];
        SubsequenceKeepLast(Matching(init), init, last);
      } else {
        assert Matching(ws) == Matching(init);
        SubsequenceExtend(Matching(init), init, last);
      }
    }
  }

  const CommonWords: set<string> := {"THE", "AND", "FOR", "WITH", "FROM", "THIS", "THAT", "LIMITED", "LTD", "INC", "CORP"}

  /** The test the loop of `_extract_symbol_from_text` applies to a token. */
  predicate Accepted(w: string) {
    w !in CommonWords && |w| >= 2 && IsAlnumWord(w) && 2 <= |w| <= 20
  }

  /** The loop of `_extract_symbol_from_text` over the tokens. */
  function FirstSymbol(tokens: seq<string>): (r: Option<string>)
    ensures r.None? <==> forall j :: 0 <= j < |tokens| ==> !Accepted(tokens[j])
    ensures r.Some? ==>
      exists i :: 0 <= i < |tokens| && tokens[i] == r.value && Accepted(r.value)
        && forall j :: 0 <= j < i ==> !Accepted(tokens[j])
  {
    if tokens == [] then None
    else if Accepted(tokens[0]) then Some(tokens[0])
    else
      var r := FirstSymbol(tokens[1..]);
      assert forall j :: 1 <= j < |tokens| ==> tokens[j] == tokens[1..][j - 1];
      if r.Some? then
        var i :| 0 <= i < |tokens[1..]| && tokens[1..][i] == r.value && Accepted(r.value)
          && forall j :: 0 <= j < i ==> !Accepted(tokens[1..][j]);
        assert tokens[i + 1] == r.value;
        r
      else r
  }

  /** On a capital-letter token the loop's test is only the common-word test. */
  lemma ShapedAccepted(w: string)
    requires SymbolShaped(w)
    ensures Accepted(w) <==> w !in CommonWords
  {
    assert forall i :: 0 <= i < |w| ==> IsAlnum(w[i]);
  }

  /** On capital-letter tokens the loop stops at the first token that is not
      a common word, and finds none only when every token is one. */
  lemma FirstSymbolOfShaped(ts: seq<string>)
    requires forall t :: t in ts ==> SymbolShaped(t)
    ensures var r := FirstSymbol(ts);
            r.Some? ==> SymbolShaped(r.value) && r.value !in CommonWords && r.value in ts
    ensures var r := FirstSymbol(ts);
            r.Some? ==>
              exists i :: 0 <= i < |ts| && ts[i] == r.value
                && forall j :: 0 <= j < i ==> ts[j] in CommonWords
    ensures FirstSymbol(ts).None? <==> forall t :: t in ts ==> t in CommonWords
  {
    forall j | 0 <= j < |ts|
      ensures Accepted(ts[j]) <==> ts[j] !in CommonWords
    {
      assert ts[j] in ts;
      ShapedAccepted(ts[j]);
    }
    var r := FirstSymbol(ts);
    if r.Some? {
      var i :| 0 <= i < |ts| && ts[i] == r.value && Accepted(r.value)
        && forall j :: 0 <= j < i ==> !Accepted(ts[j]);
      assert ts[i] in ts;
    } else {
      assert forall t :: t in ts ==> exists j :: 0 <= j < |ts| && ts[j] == t;
    }
  }

  /** `_extract_symbol_from_text`: the first capital-letter token of the
      upper-cased text that is not a common word. */
  function ExtractSymbol(text: string): (r: Option<string>)
    ensures r.Some? ==> SymbolShaped(r.value) && r.value !in CommonWords && r.value in Tokens(Upper(text))
    ensures r.Some? ==>
      exists i :: 0 <= i < |Tokens(Upper(text))| && Tokens(Upper(text))[i] == r.value
        && forall j :: 0 <= j < i ==> Tokens(Upper(text))[j] in CommonWords
    ensures r.None? <==> forall t :: t in Tokens(Upper(text)) ==> t in CommonWords
  {
    var ts := Tokens(Upper(text));
    FirstSymbolOfShaped(ts);
    FirstSymbol(ts)
  }

  /** The symbol taken from the company name: the first word, upper-cased,
      with '.' and ',' trimmed, if it is 2 to 20 letters or digits. */
  function CompanySymbol(companyName: string): (r: Option<string>)
    ensures var p := StripChars(Upper(FirstWord(companyName)), ".,");
      && (r.Some? <==> 2 <= |p| <= 20 && IsAlnumWord(p))
      && (r.Some? ==> r.value == p)
  {
    var potential := StripChars(Upper(FirstWord(companyName)), ".,");
    if 2 <= |potential| <= 20 && IsAlnumWord(potential) then Some(potential) else None
  }

  /** The company-name symbol, else the headline extraction; "" when neither
      gives one. */
  function SymbolOf(companyName: string, headline: string): (s: string)
    ensures s != "" ==> 2 <= |s| <= 20 && IsAlnumWord(s)
    ensures CompanySymbol(companyName).Some? ==> s == CompanySymbol(companyName).value
    ensures CompanySymbol(companyName).None? ==> s == ExtractSymbol(headline).GetOr("")
  {
    match CompanySymbol(companyName)
    case Some(s) => s
    case None =>
      var e := ExtractSymbol(headline);
      if e.Some? then
        assert forall i :: 0 <= i < |e.value| ==> IsAlnum(e.value[i]);
        e.value
      else ""
  }

  // ---------------------------------------------------------------- dates

  /** Python's `int(s)` on ASCII decimal text: surrounding whitespace and one
      sign allowed; `None` where Python raises. */
  function ParseInt(s: string): (r: Option<int>)
  {
    var t := Strip(s);
    if t != [] && (t[0] == '-' || t[0] == '+') then
      (if AllDigits(t[1..]) then Some((if t[0] == '-' then -1 else 1) * DigitsValue(t[1..])) else None)
    else if AllDigits(t) then Some(DigitsValue(t))
    else None
  }

  predicate AllDigits(s: string) { s != [] && forall i :: 0 <= i < |s| ==> IsDigit(s[i]) }

  function DigitsValue(s: string): (n: nat)
    requires forall i :: 0 <= i < |s| ==> IsDigit(s[i])
  {
    if s == [] then 0
    else
      assert IsDigit(s[|s| - 1]);
      10 * DigitsValue(s[..|s| - 1]) + (s[|s| - 1] as int - '0' as int)
  }

  /** The decimal text of `n`, as Python's `str(n)`. */
  function Decimal(n: nat): (s: string)
    ensures AllDigits(s)
  {
    if n < 10 then [('0' as int + n) as char]
    else Decimal(n / 10) + [('0' as int + n % 10) as char]
  }

  lemma {:induction false} DecimalRoundTrip(n: nat)
    ensures DigitsValue(Decimal(n)) == n
  {
    var s := Decimal(n);
    if n >= 10 {
      DecimalRoundTrip(n / 10);
      assert s[..|s| - 1] == Decimal(n / 10);
    }
  }

  const DateFormats: seq<string> := ["%d %b %Y", "%d-%b-%Y", "%d/%m/%Y", "%d-%m-%Y", "%Y-%m-%d", "%d %B %Y"]

  /** The first format `strptime` accepts, in order. */
  function TryFormats(s: string, strptime: Strptime, formats: seq<string>): (r: Option<Date>)
    ensures r.None? <==> forall f :: f in formats ==> strptime(s, f).None?
  {
    if formats == [] then None
    else if strptime(s, formats[0]).Some? then strptime(s, formats[0])
    else TryFormats(s, strptime, formats[1..])
  }

  /** The date `TryFormats` returns is that of the first accepting format. */
  lemma {:induction false} TryFormatsFirst(s: string, strptime: Strptime, formats: seq<string>)
    ensures var r := TryFormats(s, strptime, formats);
      r.Some? ==>
        exists k :: 0 <= k < |formats| && strptime(s, formats[k]) == r
          && forall j :: 0 <= j < k ==> strptime(s, formats[j]).None?
  {
    var r := TryFormats(s, strptime, formats);
    if formats != [] && strptime(s, formats[0]).None? && r.Some? {
      TryFormatsFirst(s, strptime, formats[1..]);
      var k :| 0 <= k < |formats[1..]| && strptime(s, formats[1..][k]) == r
        && forall j :: 0 <= j < k ==> strptime(s, formats[1..][j]).None?;
      assert strptime(s, formats[k + 1]) == r;
      assert forall j :: 1 <= j < k + 1 ==> formats[j] == formats[1..][j - 1];
    }
  }

  /** `_parse_date`: the formats in order, then the day/month/year split on
      '/'. */
  function ParseDate(text: string, strptime: Strptime): (r: Option<Date>)
    ensures text == "" ==> r.None?
    ensures text != "" && (forall k :: 0 <= k < |DateFormats| ==> strptime(Strip(text), DateFormats[k]).None?) ==>
      r == SlashDate(Strip(text))
    ensures text != "" && (exists k :: 0 <= k < |DateFormats| && strptime(Strip(text), DateFormats[k]).Some?) ==>
      exists k :: 0 <= k < |DateFormats| && strptime(Strip(text), DateFormats[k]) == r && r.Some?
        && forall j :: 0 <= j < k ==> strptime(Strip(text), DateFormats[j]).None?
  {
    if text == "" then None
    else
      var s := Strip(text);
      TryFormatsFirst(s, strptime, DateFormats);
      assert forall f :: f in DateFormats <==> exists k :: 0 <= k < |DateFormats| && DateFormats[k] == f;
      match TryFormats(s, strptime, DateFormats)
      case Some(d) => Some(d)
      case None => SlashDate(s)
  }

  /** The manual fallback: three '/'-separated integers, day first. */
  function SlashDate(s: string): Option<Date> {
    if '/' in s then
      var parts := Split(s, '/');
      if |parts| == 3 then
        match (ParseInt(parts[2]), ParseInt(parts[1]), ParseInt(parts[0]))
        case (Some(y), Some(m), Some(d)) => MakeDate(y, m, d)
        case _ => None
      else None
    else None
  }

  lemma IndexOfAt(s: string, c: char, k: nat)
    requires k < |s| && s[k] == c && c !in s[..k]
    ensures IndexOf(s, c) == k
  {
    if k > 0 {
      assert s[0] in s[..k];
      assert s[1..][..k - 1] == s[1..k];
      assert s[1..k] <= s[..k][1..];
      IndexOfAt(s[1..], c, k - 1);
    }
  }

  lemma SplitAt(a: string, b: string, sep: char)
    requires sep !in a
    ensures Split(a + [sep] + b, sep) == [a] + Split(b, sep)
  {
    var s := a + [sep] + b;
    assert s[..|a|] == a && s[|a| + 1..] == b;
    IndexOfAt(s, sep, |a|);
  }

  /** When none of the six formats matches it, "d/m/y" in decimal digits
      gives `date(y, m, d)`. */
  lemma ParseDateFallback(ds: string, ms: string, ys: string, strptime: Strptime)
    requires AllDigits(ds) && AllDigits(ms) && AllDigits(ys)
    requires forall f :: f in DateFormats ==> strptime(ds + "/" + ms + "/" + ys, f).None?
    ensures ParseDate(ds + "/" + ms + "/" + ys, strptime)
         == MakeDate(DigitsValue(ys), DigitsValue(ms), DigitsValue(ds))
  {
    var s := ds + "/" + ms + "/" + ys;
    assert s[0] == ds[0] && s[|s| - 1] == ys[|ys| - 1];
    StripUnchanged(s);
    assert TryFormats(s, strptime, DateFormats).None?;
    SlashDateDigits(ds, ms, ys);
  }

  lemma SlashDateDigits(ds: string, ms: string, ys: string)
    requires AllDigits(ds) && AllDigits(ms) && AllDigits(ys)
    ensures SlashDate(ds + "/" + ms + "/" + ys) == MakeDate(DigitsValue(ys), DigitsValue(ms), DigitsValue(ds))
  {
    var s := ds + "/" + ms + "/" + ys;
    assert s[|ds|] == '/';
    SlashParts(ds, ms, ys);
    ParseIntDigits(ds);
    ParseIntDigits(ms);
    ParseIntDigits(ys);
  }

  lemma StripUnchanged(s: string)
    requires s != [] && !IsSpace(s[0]) && !IsSpace(s[|s| - 1])
    ensures Strip(s) == s
  {
  }

  lemma SlashParts(ds: string, ms: string, ys: string)
    requires AllDigits(ds) && AllDigits(ms) && AllDigits(ys)
    ensures Split(ds + "/" + ms + "/" + ys, '/') == [ds, ms, ys]
  {
    assert '/' !in ds && '/' !in ms && '/' !in ys;
    var tail := ms + ['/'] + ys;
    SlashJoin(ds, ms, ys);
    SplitAt(ms, ys, '/');
    SplitWhole(ys, '/');
    assert Split(tail, '/') == [ms, ys];
    SplitAt(ds, tail, '/');
  }

  lemma SlashJoin(a: string, b: string, c: string)
    ensures a + "/" + b + "/" + c == a + ['/'] + (b + ['/'] + c)
  {
  }

  lemma SplitWhole(s: string, sep: char)
    requires sep !in s
    ensures Split(s, sep) == [s]
  {
  }

  lemma ParseIntDigits(s: string)
    requires AllDigits(s)
    ensures ParseInt(s) == Some(DigitsValue(s))
  {
    StripUnchanged(s);
  }

  // ---------------------------------------------------------------- rows

  /** `news_date` as the page gives it: absent, text, or epoch milliseconds. */
  datatype NewsDate = NoNewsDate | NewsText(text: string) | NewsMillis(ms: real)

  /** A row read from the announcements page; a missing text field is "". */
  datatype PageRow = PageRow(scripCode: string, companyName: string, headline: string,
                             category: string, newsDate: NewsDate)

  /** A collected announcement; `symbol` and `scripCode` are "" for `None`.
      Its `url` is always `None` and is not represented. */
  datatype Collected = Collected(symbol: string, scripCode: string, headline: string, eventDate: Date,
                                 category: string, companyName: string)

  const MinHeadline: nat := 10
  const MaxHeadline: nat := 500

  /** The event date: the parsed `news_date`, else the scrape date;
      `fromTimestamp` is `None` where `datetime.fromtimestamp` raises. */
  function EventDate(n: NewsDate, scrapeDate: Date, strptime: Strptime, fromTimestamp: real -> Option<Date>)
    : (d: Date)
    ensures n.NoNewsDate? || n == NewsText("") || n == NewsMillis(0.0) ==> d == scrapeDate
  {
    match n
    case NoNewsDate => scrapeDate
    case NewsText(t) => if t == "" then scrapeDate else ParseDate(t, strptime).GetOr(scrapeDate)
    case NewsMillis(ms) => if ms == 0.0 then scrapeDate else fromTimestamp(ms / 1000.0).GetOr(scrapeDate)
  }

  /** The per-row normalisation of `scrape_bse_announcements` for one category. */
  function NormaliseRow(row: PageRow, categoryValue: string, scrapeDate: Date, strptime: Strptime,
                        fromTimestamp: real -> Option<Date>): (r: Option<Collected>)
    ensures r.Some? <==>
      |Strip(row.headline)| >= MinHeadline && (SymbolOf(row.companyName, Strip(row.headline)) != "" || row.scripCode != "")
    ensures r.Some? ==> r.value.symbol != "" || r.value.scripCode != ""
  {
    var headline := Strip(row.headline);
    if |headline| < MinHeadline then None
    else
      var category := if row.category != "" then row.category else categoryValue;
      var eventDate := EventDate(row.newsDate, scrapeDate, strptime, fromTimestamp);
      var symbol := SymbolOf(row.companyName, headline);
      if symbol != "" || row.scripCode != "" then
        Some(Collected(Upper(symbol), row.scripCode, Prefix(headline, MaxHeadline), eventDate, category,
                       row.companyName))
      else None
  }

  /** A kept headline is the stripped headline cut to 500 characters, and at
      least 10 long. */
  lemma NormalisedHeadline(row: PageRow, categoryValue: string, scrapeDate: Date, strptime: Strptime,
                           fromTimestamp: real -> Option<Date>)
    ensures var r := NormaliseRow(row, categoryValue, scrapeDate, strptime, fromTimestamp);
      r.Some? ==>
        && MinHeadline <= |r.value.headline| <= MaxHeadline && r.value.headline <= Strip(row.headline)
        && (|Strip(row.headline)| <= MaxHeadline ==> r.value.headline == Strip(row.headline))
  {
  }

  // ---------------------------------------------------------------- volatility filter

  function Volatile(all: seq<Collected>): (kept: seq<Collected>)
    ensures |kept| <= |all|
    ensures forall a :: a in kept <==> a in all && IsHighVolatility(a.category, a.headline)
  {
    if all == [] then []
    else
      var last := all[|all| - 1];
      Volatile(all[..|all| - 1]) + (if IsHighVolatility(last.category, last.headline) then [last] else [])
  }

  lemma {:induction false} VolatileIsSubsequence(all: seq<Collected>)
    ensures Subsequence(Volatile(all), all)
  {
    if all != [] {
      var init := all[..|all| - 1];
      var last := all[|all| - 1];
      VolatileIsSubsequence(init);
      if IsHighVolatility(last.category, last.headline) {
        var v := Volatile(all);
        assert v[..|v| - 1] == Volatile(init) && v[|v| - 1] == last;
      } else {
        assert Volatile(all) == Volatile(init) && init + [last] == all;
        SubsequenceExtend(Volatile(init), init, last);
      }
    }
  }

  /** The filter step after collection: with filtering on, the items passing the
      volatility test and the number dropped; with it off, everything. */
  method KeepHighVolatility(all: seq<Collected>, filterOn: bool)
    returns (announcements: seq<Collected>, filteredCount: nat)
    ensures announcements == (if filterOn then Volatile(all) else all)
    ensures filteredCount == |all| - |announcements|
  {
    if !filterOn {
      return all, 0;
    }
    announcements := [];
    filteredCount := 0;
    for i := 0 to |all|
      invariant announcements == Volatile(all[..i])
      invariant filteredCount == i - |announcements|
    {
      var a := all[i];
      assert all[..i + 1][..i] == all[..i] && all[..i + 1][i] == a;
      if IsHighVolatility(a.category, a.headline) {
        announcements := announcements + [a];
      } else {
        filteredCount := filteredCount + 1;
      }
    }
    assert all[..|all|] == all;
  }

  // ---------------------------------------------------------------- dedup

  /** The content hash: MD5 of "identifier|headline|date" is taken to be
      injective, so the triple itself stands for it. */
  datatype ContentKey = ContentKey(identifier: string, headline: string, eventDate: Date)

  /** The event record the ingestion builds (`published_at` is left out). */
  datatype NewEvent = NewEvent(symbol: string, scripCode: string, headline: string, category: string,
                               eventDate: Date, source: string, key: ContentKey)

  /** Items without a headline or without both identifiers are skipped. */
  predicate Usable(a: Collected) { a.headline != "" && (a.symbol != "" || a.scripCode != "") }

  function Identifier(a: Collected): string { if a.symbol != "" then a.symbol else a.scripCode }

  function KeyOf(a: Collected): ContentKey { ContentKey(Identifier(a), a.headline, a.eventDate) }

  function ToEvent(a: Collected): (e: NewEvent)
    ensures e.key == KeyOf(a) && e.source == "BSE"
  {
    NewEvent(a.symbol, a.scripCode, a.headline, a.category, a.eventDate, "BSE", KeyOf(a))
  }

  function Keys(es: seq<NewEvent>): set<ContentKey> {
    set e | e in es :: e.key
  }

  /** The dictionary keyed by content hash, values in insertion order: the
      first usable item with each key. */
  function Deduped(all: seq<Collected>): (es: seq<NewEvent>)
    ensures |es| <= |all|
  {
    if all == [] then []
    else
      var rest := Deduped(all[..|all| - 1]);
      var a := all[|all| - 1];
      if Usable(a) && KeyOf(a) !in Keys(rest) then rest + [ToEvent(a)] else rest
  }

  /** The dedup loop, filling the dictionary in place. */
  method DedupByContent(all: seq<Collected>) returns (events: seq<NewEvent>)
    ensures events == Deduped(all)
  {
    var seen: set<ContentKey> := {};
    events := [];
    for i := 0 to |all|
      invariant events == Deduped(all[..i]) && seen == Keys(events)
    {
      var a := all[i];
      assert all[..i + 1][..i] == all[..i] && all[..i + 1][i] == a;
      if a.headline == "" {
        continue;
      }
      if a.symbol == "" && a.scripCode == "" {
        continue;
      }
      var identifier := if a.symbol != "" then a.symbol else a.scripCode;
      var key := ContentKey(identifier, a.headline, a.eventDate);
      if key in seen {
        continue;
      }
      events := events + [ToEvent(a)];
      seen := seen + {key};
    }
    assert all[..|all|] == all;
  }

  predicate KeysDistinct(es: seq<NewEvent>) {
    forall i, j :: 0 <= i < j < |es| ==> es[i].key != es[j].key
  }

  /** No two kept events share a content hash. */
  lemma {:induction false} DedupKeysDistinct(all: seq<Collected>)
    ensures KeysDistinct(Deduped(all))
  {
    if all != [] {
      DedupKeysDistinct(all[..|all| - 1]);
      var rest := Deduped(all[..|all| - 1]);
      var es := Deduped(all);
      if es != rest {
        assert es == rest + [ToEvent(all[|all| - 1])];
        assert forall i :: 0 <= i < |rest| ==> es[i] == rest[i];
        forall i | 0 <= i < |rest|
          ensures es[i].key != es[|rest|].key
        {
          assert rest[i] in rest;
          assert es[i] == rest[i];
        }
        forall i, j | 0 <= i < j < |es|
          ensures es[i].key != es[j].key
        {
          if j < |rest| {
            assert es[i] == rest[i] && es[j] == rest[j];
          }
        }
      }
    }
  }

  /** The first usable item with a given content hash is the one kept, and
      every usable item's hash is kept. */
  lemma {:induction false} DedupFirstWins(all: seq<Collected>, i: nat)
    requires i < |all| && Usable(all[i])
    ensures KeyOf(all[i]) in Keys(Deduped(all))
    ensures (forall j :: 0 <= j < i ==> !(Usable(all[j]) && KeyOf(all[j]) == KeyOf(all[i])))
            ==> ToEvent(all[i]) in Deduped(all)
  {
    var init := all[..|all| - 1];
    if i < |all| - 1 {
      assert all[i] == init[i];
      DedupFirstWins(init, i);
      assert Deduped(init) <= Deduped(all);
      KeysGrow(Deduped(init), Deduped(all));
    } else if KeyOf(all[i]) !in Keys(Deduped(init)) {
      var es := Deduped(all);
      assert es[|es| - 1] == ToEvent(all[i]);
    } else {
      assert Deduped(all) == Deduped(init);
      DedupSources(init);
      var e :| e in Deduped(init) && e.key == KeyOf(all[i]);
      var j :| 0 <= j < |init| && Usable(init[j]) && e == ToEvent(init[j]);
      assert all[j] == init[j];
    }
  }

  /** The kept events keep the order of the items they are built from. */
  lemma {:induction false} DedupKeepsOrder(all: seq<Collected>)
    ensures Subsequence(Deduped(all), Map(ToEvent, all))
  {
    if all != [] {
      var init := all[..|all| - 1];
      var a := all[|all| - 1];
      DedupKeepsOrder(init);
      assert init + [a] == all;
      MapSnoc(ToEvent, init, a);
      if Deduped(all) == Deduped(init) {
        SubsequenceExtend(Deduped(init), Map(ToEvent, init), ToEvent(a));
      } else {
        SubsequenceKeepLast(Deduped(init), Map(ToEvent, init), ToEvent(a));
      }
    }
  }

  /** Every kept event is built from a usable item. */
  lemma {:induction false} DedupSources(all: seq<Collected>)
    ensures forall e :: e in Deduped(all) ==>
      exists j :: 0 <= j < |all| && Usable(all[j]) && e == ToEvent(all[j])
  {
    if all != [] {
      var init := all[..|all| - 1];
      DedupSources(init);
      forall e | e in Deduped(all)
        ensures exists j :: 0 <= j < |all| && Usable(all[j]) && e == ToEvent(all[j])
      {
        if e in Deduped(init) {
          var j :| 0 <= j < |init| && Usable(init[j]) && e == ToEvent(init[j]);
          assert all[j] == init[j];
        } else {
          assert e == ToEvent(all[|all| - 1]);
        }
      }
    }
  }

  lemma KeysGrow(xs: seq<NewEvent>, ys: seq<NewEvent>)
    requires xs <= ys
    ensures Keys(xs) <= Keys(ys)
  {
    forall k | k in Keys(xs)
      ensures k in Keys(ys)
    {
      var e :| e in xs && e.key == k;
      assert e in ys;
    }
  }

  /** The events not already stored, in first-seen order. */
  function NotStored(events: seq<NewEvent>, existing: set<ContentKey>): (r: seq<NewEvent>)
    ensures |r| <= |events|
    ensures forall e :: e in r <==> e in events && e.key !in existing
  {
    if events == [] then []
    else
      var last := events[|events| - 1];
      NotStored(events[..|events| - 1], existing) + (if last.key !in existing then [last] else [])
  }

  lemma {:induction false} NotStoredIsSubsequence(events: seq<NewEvent>, existing: set<ContentKey>)
    ensures Subsequence(NotStored(events, existing), events)
  {
    if events != [] {
      var init := events[..|events| - 1];
      var last := events[|events| - 1];
      NotStoredIsSubsequence(init, existing);
      if last.key !in existing {
        var r := NotStored(events, existing);
        assert r[..|r| - 1] == NotStored(init, existing) && r[|r| - 1] == last;
      } else {
        assert NotStored(events, existing) == NotStored(init, existing) && init + [last] == events;
        SubsequenceExtend(NotStored(init, existing), init, last);
      }
    }
  }

  /** The events `ingest_bse_announcements` hands to the database. */
  function EventsToInsert(all: seq<Collected>, existing: set<ContentKey>): seq<NewEvent> {
    NotStored(Deduped(all), existing)
  }
}
