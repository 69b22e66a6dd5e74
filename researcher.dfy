/** The research synthesiser of app/services/stock_researcher.py: for an
    announcement with a classification, find technicals on the announcement
    date or up to five days before, find options liquidity, combine the
    announced and technical directions, score the confidence, and pick an
    options strategy. */
module Researcher {
  import opened Wrappers
  import opened Dates
  import opened Ranking
  import opened Text
  import opened Signals
  import opened Options
  import opened Announcements

  /** `classify_direction_and_strategy`: the technical direction and strategy
      hint of a score dictionary. Its definition is not part of this model. */
  type TechnicalClassifier = SymbolScore -> (ValidDirection, string)

  /** Technicals are tried at the announcement date and up to 5 days before. */
  const MaxDaysBack: nat := 5
  const NarrowBand: real := 0.1
  const WideBand: real := 0.2

  /** `None` is Python's `None`: an absent key read without a default, or a null. */
  datatype AnnouncementView = AnnouncementView(headline: Option<string>, eventType: Option<EventType>,
                                               direction: Option<ValidDirection>,
                                               reactionWindow: Option<ValidWindow>,
                                               confidence: Option<ValidConfidence>, explanation: Option<string>)

  /** `None` for a number is a Python `None` or a NaN. */
  datatype TechnicalView = TechnicalView(direction: ValidDirection, strategyHint: string,
                                         dailyReturn: Option<real>, volSpike: Option<real>,
                                         atrPct: Option<real>, gapPct: Option<real>, spotPrice: Option<real>)

  datatype LiquidityView = LiquidityView(totalOi: real, totalVolume: real, expiry: Option<Date>)

  /** The direction is `None` only in an early return for a null `ai_direction`. */
  datatype Recommendation = Recommendation(direction: Option<ValidDirection>, confidenceScore: int,
                                           tradeReady: bool, strategy: string)

  datatype ResearchResult = ResearchResult(symbol: string, announcementDate: Date,
                                           announcement: AnnouncementView, technicals: TechnicalView,
                                           liquidity: LiquidityView, recommendation: Recommendation,
                                           note: Option<string>)

  const Unknown: ValidDirection := OtherDirection("unknown")
  const NoLiquidity := LiquidityView(0.0, 0.0, None)
  const NotInUniverseNote := "Stock not in FNO universe - options trading not available"
  const NoTechnicalsNote := "No technical data available - recommendation based on announcement only. Check if data is ingested for this date range."

  /** The advice for a neutral final direction; the first word is a literal of
      its own so that its first letter is visible to the verifier. */
  const WaitText := "Wait" + " for clearer signals or trade intraday only"

  /** `classification.get("ai_direction", "neutral")`: `None` for a null. */
  function Announced(c: Classification): Option<ValidDirection> { c.aiDirection.Get(Neutral) }

  /** A direction as an f-string prints it; `None` prints as "None". */
  function DirectionText(d: Option<ValidDirection>): string {
    if d.Some? then DirectionLabel(d.value) else "None"
  }

  /** The announcement block as the two early returns build it. */
  function RawView(c: Classification): AnnouncementView {
    AnnouncementView(c.headline.Get(""), c.eventType, c.aiDirection.Read(), c.reactionWindow.Read(),
                     c.confidence.Read(), c.explanation.Get(""))
  }

  function NoTechnicals(hint: string): TechnicalView {
    TechnicalView(Unknown, hint, None, None, None, None, None)
  }

  /** The early return for a symbol outside the F&O universe. */
  function NotInUniverse(symbol: string, announcementDate: Date, c: Classification): (r: ResearchResult)
    ensures r.recommendation.confidenceScore == 30 && !r.recommendation.tradeReady
    ensures r.recommendation.direction == Announced(c) && r.liquidity == NoLiquidity
  {
    ResearchResult(symbol, announcementDate, RawView(c), NoTechnicals("Stock not in FNO universe"), NoLiquidity,
      Recommendation(Announced(c), 30, false,
        "Stock not in FNO universe - cannot trade options. Announcement suggests "
        + DirectionText(Announced(c)) + " direction."),
      Some(NotInUniverseNote))
  }

  /** The early return when none of the six dates has technicals. */
  function NoTechnicalData(symbol: string, announcementDate: Date, c: Classification): (r: ResearchResult)
    ensures r.recommendation.confidenceScore == (if c.confidence == Present(High) then 50 else 30)
    ensures !r.recommendation.tradeReady && r.recommendation.direction == Announced(c)
    ensures r.liquidity == NoLiquidity
  {
    ResearchResult(symbol, announcementDate, RawView(c), NoTechnicals("No technical data available"), NoLiquidity,
      Recommendation(Announced(c), if c.confidence == Present(High) then 50 else 30, false,
        "Wait for technical data. Announcement suggests " + DirectionText(Announced(c)) + " direction."),
      Some(NoTechnicalsNote))
  }

  // ---------------------------------------------------------------- searches

  /** `score_symbol_for_date` over the stored prices with the default lookback,
      as a function of the date tried. */
  function Scorer(prices: seq<PriceRow>, symbol: string): Date -> Option<SymbolScore>
    requires AllWellFormed(prices)
  {
    d => ScoreSymbolForDate(prices, symbol, d, LookbackDaysDefault)
  }

  /** The score dictionaries of the announcement date (index 0) and of each of
      the five days before it. */
  function TechnicalAttempts(score: Date -> Option<SymbolScore>, announcementDate: Date)
    : (a: seq<Option<SymbolScore>>)
    ensures |a| == MaxDaysBack + 1
    ensures forall j :: 0 <= j < |a| ==> a[j] == score(announcementDate - j)
  {
    seq(MaxDaysBack + 1, j => score(announcementDate - j))
  }

  datatype Found = Found(metrics: SymbolScore, usedDate: Date, daysBack: nat)

  /** The date-fallback search from `from` days back: the first date with technicals. */
  function TechnicalSearch(attempts: seq<Option<SymbolScore>>, announcementDate: Date, from: nat)
    : (r: Option<Found>)
    requires from <= |attempts|
    ensures r.Some? ==> from <= r.value.daysBack < |attempts|
                        && r.value.usedDate == announcementDate - r.value.daysBack
    decreases |attempts| - from
  {
    if from == |attempts| then None
    else match attempts[from]
      case Some(m) => Some(Found(m, announcementDate - from, from))
      case None => TechnicalSearch(attempts, announcementDate, from + 1)
  }

  /** The search returns the technicals of the first date, counting back from
      the announcement, that has them; `None` exactly when no date has. */
  lemma {:induction false} TechnicalSearchFindsFirst(attempts: seq<Option<SymbolScore>>, announcementDate: Date,
                                                     from: nat)
    requires from <= |attempts|
    ensures var r := TechnicalSearch(attempts, announcementDate, from);
      && (r.Some? ==> && attempts[r.value.daysBack] == Some(r.value.metrics)
                      && forall j :: from <= j < r.value.daysBack ==> attempts[j].None?)
      && (r.None? <==> forall j :: from <= j < |attempts| ==> attempts[j].None?)
    decreases |attempts| - from
  {
    if from < |attempts| && attempts[from].None? {
      TechnicalSearchFindsFirst(attempts, announcementDate, from + 1);
    }
  }

  /** The liquidity search: for each date in order, band 0.1 then band 0.2;
      the first snapshot found wins. */
  function LiquiditySearch(prices: seq<PriceRow>, chain: seq<OptionRow>, symbol: string, dates: seq<Date>)
    : (r: Option<Liquidity>)
    ensures r.None? <==> forall k :: 0 <= k < |dates| ==>
      OptionsLiquidity(prices, chain, symbol, dates[k], NarrowBand).None?
      && OptionsLiquidity(prices, chain, symbol, dates[k], WideBand).None?
    ensures r.Some? ==> r.value.symbol == symbol && r.value.date in dates
  {
    if dates == [] then None
    else
      var narrow := OptionsLiquidity(prices, chain, symbol, dates[0], NarrowBand);
      if narrow.Some? then narrow
      else
        var wide := OptionsLiquidity(prices, chain, symbol, dates[0], WideBand);
        if wide.Some? then wide
        else
          assert forall k :: 1 <= k < |dates| ==> dates[k] == dates[1..][k - 1];
          LiquiditySearch(prices, chain, symbol, dates[1..])
  }

  /** The first date, in order, where band 0.1 or band 0.2 finds a snapshot
      decides the search: band 0.1 if it finds one there, else band 0.2. */
  lemma {:induction false} LiquiditySearchFindsFirst(prices: seq<PriceRow>, chain: seq<OptionRow>, symbol: string,
                                                     dates: seq<Date>, k: nat)
    requires k < |dates|
    requires forall j :: 0 <= j < k ==>
      OptionsLiquidity(prices, chain, symbol, dates[j], NarrowBand).None?
      && OptionsLiquidity(prices, chain, symbol, dates[j], WideBand).None?
    requires OptionsLiquidity(prices, chain, symbol, dates[k], NarrowBand).Some?
             || OptionsLiquidity(prices, chain, symbol, dates[k], WideBand).Some?
    ensures var narrow := OptionsLiquidity(prices, chain, symbol, dates[k], NarrowBand);
      LiquiditySearch(prices, chain, symbol, dates)
      == if narrow.Some? then narrow else OptionsLiquidity(prices, chain, symbol, dates[k], WideBand)
  {
    if k > 0 {
      assert forall j :: 0 <= j < k - 1 ==> dates[1..][j] == dates[j + 1];
      LiquiditySearchFindsFirst(prices, chain, symbol, dates[1..], k - 1);
    }
  }

  /** The announcement date, then the technicals date when it differs. */
  function LiquidityDates(announcementDate: Date, usedDate: Date): (ds: seq<Date>)
    ensures 1 <= |ds| <= 2 && ds[0] == announcementDate
    ensures |ds| == 2 <==> usedDate != announcementDate
    ensures usedDate in ds
  {
    if usedDate != announcementDate then [announcementDate, usedDate] else [announcementDate]
  }

  // ---------------------------------------------------------------- rules

  /** The direction-combination table. */
  /** The direction-combination table; a `None` announced direction (a null)
      never equals a technical label. */
  function FinalDirection(announced: Option<ValidDirection>, technical: ValidDirection): (d: ValidDirection)
    ensures d == Bullish <==> announced == Some(Bullish) && technical in {Bullish, Neutral}
    ensures d == Bearish <==> announced == Some(Bearish) && technical in {Bearish, Neutral}
    ensures d != Neutral ==> announced == Some(d)
    ensures d.OtherDirection? ==> announced == Some(technical)
  {
    if announced == Some(Bullish) && technical in {Bullish, Neutral} then Bullish
    else if announced == Some(Bearish) && technical in {Bearish, Neutral} then Bearish
    else if announced == Some(technical) && technical != Neutral then technical
    else Neutral
  }

  /** The additive confidence score, capped at 100. */
  function ConfidenceScore(announced: Option<ValidDirection>, technical: ValidDirection,
                           confidence: Option<ValidConfidence>, volSpike: Option<real>, dailyReturn: Option<real>)
    : (s: int)
    ensures 50 <= s <= 100
    ensures announced == Some(technical) && technical != Neutral ==> s >= 70
    ensures confidence == Some(High) ==> s >= 65
    ensures s >= 60 ==> (announced == Some(technical) && technical != Neutral)
                        || confidence in {Some(High), Some(Medium)}
                        || (volSpike.Some? && volSpike.value > 1.5)
                        || (dailyReturn.Some? && Abs(dailyReturn.value) > 0.03)
  {
    var s := 50
      + (if announced == Some(technical) && technical != Neutral then 20 else 0)
      + (if confidence == Some(High) then 15 else if confidence == Some(Medium) then 10 else 0)
      + (if volSpike.Some? && volSpike.value > 1.5 then 10 else 0)
      + (if dailyReturn.Some? && Abs(dailyReturn.value) > 0.03 then 10 else 0);
    if s < 100 then s else 100
  }

  predicate TradeReady(score: int, liquidity: Option<Liquidity>) {
    score >= 60 && liquidity.Some? && liquidity.value.totalOi > 0.0
  }

  /** The timing phrase of a reaction window; `None` (a null) and any other
      label give the last phrase. */
  function Timing(w: Option<ValidWindow>): (t: string)
    ensures w == Some(SameDay) ==> t == "immediate"
    ensures w == Some(NextDay) ==> t == "next trading session"
    ensures w != Some(SameDay) && w != Some(NextDay) ==> t == "within 1-3 days"
  {
    if w == Some(SameDay) then "immediate"
    else if w == Some(NextDay) then "next trading session"
    else "within 1-3 days"
  }

  /** `_generate_strategy_recommendation`: the wait advice exactly for a
      neutral direction, otherwise "<trade> (<timing>) - <reason>". */
  function StrategyText(final: ValidDirection, window: Option<ValidWindow>, atrPct: real): (s: string)
    ensures s == WaitText <==> final == Neutral
    ensures final != Neutral ==> IsPrefix(TradeAction(final, atrPct) + " (" + Timing(window) + ")", s)
  {
    if final == Neutral then WaitText
    else Advice(TradeAction(final, atrPct), Timing(window), TradeReason(final, atrPct))
  }

  /** The trade of a non-neutral direction: options below 4% ATR, a spread at
      or above it; calls when bullish, puts otherwise. */
  function TradeAction(final: ValidDirection, atrPct: real): (a: string)
    ensures a != [] && a[0] == 'B'
    ensures final == Bullish && atrPct < 0.04 ==> a == "Buy near-ATM call options"
    ensures final == Bullish && atrPct >= 0.04 ==> a == "Bull call spread"
    ensures final != Bullish && atrPct < 0.04 ==> a == "Buy near-ATM put options"
    ensures final != Bullish && atrPct >= 0.04 ==> a == "Bear put spread"
  {
    if final == Bullish then
      if atrPct < 0.04 then "Buy near-ATM call options" else "Bull call spread"
    else
      if atrPct < 0.04 then "Buy near-ATM put options" else "Bear put spread"
  }

  function TradeReason(final: ValidDirection, atrPct: real): string {
    if atrPct < 0.04 then "low volatility, expect sharp move"
    else if final == Bullish then "buy ATM call, sell OTM call to reduce cost"
    else "buy ATM put, sell OTM put to reduce cost"
  }

  /** "<action> (<timing>) - <reason>": a trade advice, never the wait text
      when the action starts with 'B'. */
  function Advice(action: string, timing: string, reason: string): (s: string)
    requires action != [] && action[0] == 'B'
    ensures IsPrefix(action + " (" + timing + ")", s) && s != WaitText
  {
    var head := action + " (" + timing + ")";
    var s := head + " - " + reason;
    assert s[..|head|] == head && s[0] == 'B' && WaitText[0] == 'W';
    s
  }

  /** The full recommendation once technicals were found. */
  function Synthesise(symbol: string, announcementDate: Date, c: Classification, m: SymbolScore,
                      liquidity: Option<Liquidity>, technical: TechnicalClassifier): (r: ResearchResult)
    ensures var techDir := technical(m).0;
            var final := FinalDirection(Announced(c), techDir);
      && r.technicals.direction == techDir
      && r.recommendation.direction == Some(final)
      && r.recommendation.confidenceScore
         == ConfidenceScore(Announced(c), techDir, c.confidence.Get(Low), m.volSpike, m.ret)
      && r.recommendation.strategy == StrategyText(final, c.reactionWindow.Get(NextDay), m.atrPct)
    ensures r.recommendation.tradeReady <==> TradeReady(r.recommendation.confidenceScore, liquidity)
    ensures 50 <= r.recommendation.confidenceScore <= 100
    ensures r.announcement.direction == Announced(c) && r.announcement.reactionWindow == c.reactionWindow.Get(NextDay)
    ensures liquidity.Some? ==>
      && r.liquidity == LiquidityView(liquidity.value.totalOi, liquidity.value.totalVolume, Some(liquidity.value.expiry))
      && r.technicals.spotPrice == Some(liquidity.value.spot)
    ensures liquidity.None? ==> r.liquidity == NoLiquidity && r.technicals.spotPrice.None?
    ensures r.note.None?
  {
    var (techDir, hint) := technical(m);
    var announced := Announced(c);
    var window := c.reactionWindow.Get(NextDay);
    var confidence := c.confidence.Get(Low);
    var final := FinalDirection(announced, techDir);
    var score := ConfidenceScore(announced, techDir, confidence, m.volSpike, m.ret);
    ResearchResult(symbol, announcementDate,
      AnnouncementView(c.headline.Get(""), c.eventType, announced, window, confidence, c.explanation.Get("")),
      TechnicalView(techDir, hint, m.ret, m.volSpike, Some(m.atrPct), Some(m.gapPct),
                    if liquidity.Some? then Some(liquidity.value.spot) else None),
      if liquidity.Some? then LiquidityView(liquidity.value.totalOi, liquidity.value.totalVolume,
                                            Some(liquidity.value.expiry))
      else NoLiquidity,
      Recommendation(Some(final), score, TradeReady(score, liquidity), StrategyText(final, window, m.atrPct)),
      None)
  }

  /** `research_stock_with_announcement`; `universe` is `None` when the F&O
      universe file cannot be read, which raises. */
  function Research(prices: seq<PriceRow>, chain: seq<OptionRow>, universe: Option<seq<string>>,
                    technical: TechnicalClassifier, symbol: string, announcementDate: Date,
                    c: Classification): (r: Result<ResearchResult>)
    requires AllWellFormed(prices)
    ensures r.Success? <==> universe.Some?
    ensures r.Success? ==> r.value.symbol == Upper(symbol) && r.value.announcementDate == announcementDate
    ensures r.Success? ==> 30 <= r.value.recommendation.confidenceScore <= 100
  {
    var up := Upper(symbol);
    if universe.None? then Failure("F&O universe unavailable")
    else if up !in universe.value then Success(NotInUniverse(up, announcementDate, c))
    else match TechnicalSearch(TechnicalAttempts(Scorer(prices, up), announcementDate), announcementDate, 0)
      case None => Success(NoTechnicalData(up, announcementDate, c))
      case Some(found) =>
        var liquidity := LiquiditySearch(prices, chain, up, LiquidityDates(announcementDate, found.usedDate));
        Success(Synthesise(up, announcementDate, c, found.metrics, liquidity, technical))
  }

  method ResearchStockWithAnnouncement(prices: seq<PriceRow>, chain: seq<OptionRow>, universe: Option<seq<string>>,
                                       technical: TechnicalClassifier, symbol: string, announcementDate: Date,
                                       c: Classification)
    returns (r: Result<ResearchResult>)
    requires AllWellFormed(prices)
    ensures r == Research(prices, chain, universe, technical, symbol, announcementDate, c)
  {
    var up := Upper(symbol);
    if universe.None? {
      return Failure("F&O universe unavailable");
    }
    if up !in universe.value {
      return Success(NotInUniverse(up, announcementDate, c));
    }
    var found := FindTechnicals(Scorer(prices, up), announcementDate);
    if found.None? {
      return Success(NoTechnicalData(up, announcementDate, c));
    }
    var metrics := Some(found.value.metrics);
    var liquidity := FindLiquidity(prices, chain, up, LiquidityDates(announcementDate, found.value.usedDate));
    var (techDir, hint) := technical(metrics.value);
    var announced := Announced(c);
    // confidence score, built up term by term
    var score := 50;
    if announced == Some(techDir) && techDir != Neutral {
      score := score + 20;
    }
    var confidence := c.confidence.Get(Low);
    if confidence == Some(High) {
      score := score + 15;
    } else if confidence == Some(Medium) {
      score := score + 10;
    }
    var m := metrics.value;
    if m.volSpike.Some? && m.volSpike.value > 1.5 {
      score := score + 10;
    }
    if m.ret.Some? && Abs(m.ret.value) > 0.03 {
      score := score + 10;
    }
    if score > 100 {
      score := 100;
    }
    assert score == ConfidenceScore(announced, techDir, confidence, m.volSpike, m.ret);
    r := Success(Synthesise(up, announcementDate, c, m, liquidity, technical));
  }

  /** The date-fallback loop: announcement date, then up to five days back. */
  method FindTechnicals(score: Date -> Option<SymbolScore>, announcementDate: Date) returns (found: Option<Found>)
    ensures found == TechnicalSearch(TechnicalAttempts(score, announcementDate), announcementDate, 0)
  {
    ghost var attempts := TechnicalAttempts(score, announcementDate);
    for daysBack := 0 to MaxDaysBack + 1
      invariant TechnicalSearch(attempts, announcementDate, daysBack) == TechnicalSearch(attempts, announcementDate, 0)
    {
      var tryDate := announcementDate - daysBack;
      var metrics := score(tryDate);
      if metrics.Some? {
        found := Some(Found(metrics.value, tryDate, daysBack));
        TechnicalSearchHit(attempts, announcementDate, daysBack, metrics.value);
        return;
      }
    }
    found := None;
  }

  lemma TechnicalSearchHit(attempts: seq<Option<SymbolScore>>, announcementDate: Date, k: nat, m: SymbolScore)
    requires k < |attempts| && attempts[k] == Some(m)
    ensures TechnicalSearch(attempts, announcementDate, k) == Some(Found(m, announcementDate - k, k))
  {
  }

  /** The liquidity loop: each date with band 0.1, then band 0.2. */
  method FindLiquidity(prices: seq<PriceRow>, chain: seq<OptionRow>, symbol: string, dates: seq<Date>)
    returns (liquidity: Option<Liquidity>)
    ensures liquidity == LiquiditySearch(prices, chain, symbol, dates)
  {
    for i := 0 to |dates|
      invariant LiquiditySearch(prices, chain, symbol, dates) == LiquiditySearch(prices, chain, symbol, dates[i..])
    {
      liquidity := OptionsLiquidity(prices, chain, symbol, dates[i], NarrowBand);
      if liquidity.Some? {
        return;
      }
      liquidity := OptionsLiquidity(prices, chain, symbol, dates[i], WideBand);
      if liquidity.Some? {
        return;
      }
      assert dates[i..][1..] == dates[i + 1..];
    }
    liquidity := None;
  }

  // ---------------------------------------------------------------- properties

  /** A symbol outside the universe gets the fixed score 30 and is never trade-ready. */
  lemma OutsideUniverseNotTradeReady(prices: seq<PriceRow>, chain: seq<OptionRow>, universe: seq<string>,
                                     technical: TechnicalClassifier, symbol: string, announcementDate: Date,
                                     c: Classification)
    requires AllWellFormed(prices) && Upper(symbol) !in universe
    ensures var r := Research(prices, chain, Some(universe), technical, symbol, announcementDate, c);
      && r.Success? && r.value.recommendation.confidenceScore == 30 && !r.value.recommendation.tradeReady
      && r.value.note == Some(NotInUniverseNote)
  {
  }

  /** Without technicals on any of the six dates the score is 50 for a
      high-confidence announcement and 30 otherwise, never trade-ready. */
  lemma NoTechnicalsScore(prices: seq<PriceRow>, chain: seq<OptionRow>, universe: seq<string>,
                          technical: TechnicalClassifier, symbol: string, announcementDate: Date,
                          c: Classification)
    requires AllWellFormed(prices) && Upper(symbol) in universe
    requires forall d :: announcementDate - MaxDaysBack <= d <= announcementDate ==> !HasRowOn(prices, Upper(symbol), d)
    ensures var r := Research(prices, chain, Some(universe), technical, symbol, announcementDate, c);
      && r.Success? && !r.value.recommendation.tradeReady
      && r.value.recommendation.confidenceScore == (if c.confidence == Present(High) then 50 else 30)
  {
    var up := Upper(symbol);
    var attempts := TechnicalAttempts(Scorer(prices, up), announcementDate);
    forall j | 0 <= j < |attempts|
      ensures attempts[j].None?
    {
      ScoreDefinedIffRowOnDate(prices, up, announcementDate - j, LookbackDaysDefault);
    }
    TechnicalSearchFindsFirst(attempts, announcementDate, 0);
  }

  /** When the technicals of the announcement date and of the dates after
      `k` days back are missing and those `k` days back exist, the research
      uses the latter, searches liquidity on the announcement date and then on
      that date, and synthesises the recommendation from them. A date has
      technicals exactly when it has a price row (`ScoreDefinedIffRowOnDate`). */
  lemma ResearchWithTechnicals(prices: seq<PriceRow>, chain: seq<OptionRow>, universe: seq<string>,
                               technical: TechnicalClassifier, symbol: string, announcementDate: Date,
                               c: Classification, k: nat)
    requires AllWellFormed(prices) && Upper(symbol) in universe && k <= MaxDaysBack
    requires ScoreSymbolForDate(prices, Upper(symbol), announcementDate - k, LookbackDaysDefault).Some?
    requires forall d :: announcementDate - k < d <= announcementDate ==>
      ScoreSymbolForDate(prices, Upper(symbol), d, LookbackDaysDefault).None?
    ensures Research(prices, chain, Some(universe), technical, symbol, announcementDate, c)
         == Success(Synthesise(Upper(symbol), announcementDate, c,
                               ScoreSymbolForDate(prices, Upper(symbol), announcementDate - k, LookbackDaysDefault).value,
                               LiquiditySearch(prices, chain, Upper(symbol),
                                               LiquidityDates(announcementDate, announcementDate - k)),
                               technical))
  {
    var up := Upper(symbol);
    var score := Scorer(prices, up);
    assert forall d :: score(d) == ScoreSymbolForDate(prices, up, d, LookbackDaysDefault);
    SearchFindsFirstScored(score, announcementDate, k);
  }

  /** With no score on the `k` most recent dates and one on the date `k` days
      back, the search returns that score. */
  lemma SearchFindsFirstScored(score: Date -> Option<SymbolScore>, announcementDate: Date, k: nat)
    requires k <= MaxDaysBack && score(announcementDate - k).Some?
    requires forall d :: announcementDate - k < d <= announcementDate ==> score(d).None?
    ensures TechnicalSearch(TechnicalAttempts(score, announcementDate), announcementDate, 0)
         == Some(Found(score(announcementDate - k).value, announcementDate - k, k))
  {
    var attempts := TechnicalAttempts(score, announcementDate);
    forall j | 0 <= j < k
      ensures attempts[j].None?
    {
      var d := announcementDate - j;
      assert announcementDate - k < d <= announcementDate;
    }
    assert attempts[k] == score(announcementDate - k);
    TechnicalSearchFindsFirst(attempts, announcementDate, 0);
  }

  /** A trade-ready recommendation has technicals, a score of at least 60 and
      a liquidity block with positive open interest. */
  lemma TradeReadyMeansLiquid(prices: seq<PriceRow>, chain: seq<OptionRow>, universe: Option<seq<string>>,
                              technical: TechnicalClassifier, symbol: string, announcementDate: Date,
                              c: Classification)
    requires AllWellFormed(prices)
    ensures var r := Research(prices, chain, universe, technical, symbol, announcementDate, c);
      r.Success? && r.value.recommendation.tradeReady ==>
        && r.value.recommendation.confidenceScore >= 60
        && r.value.liquidity.totalOi > 0.0 && r.value.liquidity.expiry.Some?
        && r.value.technicals.spotPrice.Some? && r.value.note.None?
  {
  }

  /** High confidence, agreeing bullish directions, a volume spike of 2 and a
      5% move reach the cap of 100 (50 + 20 + 15 + 10 + 10 = 105). */
  lemma ConfidenceCapReached()
    ensures ConfidenceScore(Some(Bullish), Bullish, Some(High), Some(2.0), Some(0.05)) == 100
    ensures ConfidenceScore(Some(Bullish), Neutral, Some(Low), None, None) == 50
  {
  }

  // ---------------------------------------------------------------- batch

  function ConfidenceKey(r: ResearchResult): real { r.recommendation.confidenceScore as real }

  /** One announcement of the batch: skipped without a symbol or an event date,
      or when the research raises. */
  function ResearchOne(prices: seq<PriceRow>, chain: seq<OptionRow>, universe: Option<seq<string>>,
                       technical: TechnicalClassifier, a: Announcement): Option<ResearchResult>
    requires AllWellFormed(prices)
  {
    if a.symbol == "" || a.eventDate.None? then None
    else match Research(prices, chain, universe, technical, a.symbol, a.eventDate.value,
                        a.classification.GetOr(NoClassification))
      case Failure(_) => None
      case Success(r) => Some(r)
  }

  /** The results of the batch loop, in announcement order. */
  function CollectResearch(prices: seq<PriceRow>, chain: seq<OptionRow>, universe: Option<seq<string>>,
                           technical: TechnicalClassifier, anns: seq<Announcement>): (rs: seq<ResearchResult>)
    requires AllWellFormed(prices)
    ensures |rs| <= |anns|
    ensures forall r :: r in rs ==> 30 <= r.recommendation.confidenceScore <= 100
    ensures forall r :: r in rs ==> exists a :: a in anns && ResearchOne(prices, chain, universe, technical, a) == Some(r)
  {
    if anns == [] then []
    else
      var init := anns[..|anns| - 1];
      var rest := CollectResearch(prices, chain, universe, technical, init);
      var last := anns[|anns| - 1];
      assert forall a :: a in init ==> a in anns;
      assert last in anns;
      match ResearchOne(prices, chain, universe, technical, last)
      case None => rest
      case Some(r) => rest + [r]
  }

  /** `research_multiple_stocks`: the results sorted by confidence, highest first. */
  function ResearchMany(prices: seq<PriceRow>, chain: seq<OptionRow>, universe: Option<seq<string>>,
                        technical: TechnicalClassifier, anns: seq<Announcement>): seq<ResearchResult>
    requires AllWellFormed(prices)
  {
    SortDesc(CollectResearch(prices, chain, universe, technical, anns), ConfidenceKey)
  }

  method ResearchMultipleStocks(prices: seq<PriceRow>, chain: seq<OptionRow>, universe: Option<seq<string>>,
                                technical: TechnicalClassifier, anns: seq<Announcement>)
    returns (results: seq<ResearchResult>)
    requires AllWellFormed(prices)
    ensures results == ResearchMany(prices, chain, universe, technical, anns)
    ensures |results| <= |anns| && SortedDesc(results, ConfidenceKey)
  {
    results := [];
    for i := 0 to |anns|
      invariant results == CollectResearch(prices, chain, universe, technical, anns[..i])
    {
      var a := anns[i];
      assert anns[..i + 1][..i] == anns[..i] && anns[..i + 1][i] == a;
      if a.symbol == "" || a.eventDate.None? {
        continue;
      }
      var r := ResearchStockWithAnnouncement(prices, chain, universe, technical, a.symbol, a.eventDate.value,
                                             a.classification.GetOr(NoClassification));
      if r.Failure? {
        continue;
      }
      results := results + [r.value];
    }
    assert anns[..|anns|] == anns;
    results := SortDesc(results, ConfidenceKey);
  }

  /** The batch is a permutation of the per-announcement results. */
  lemma ResearchManyPermutes(prices: seq<PriceRow>, chain: seq<OptionRow>, universe: Option<seq<string>>,
                             technical: TechnicalClassifier, anns: seq<Announcement>)
    requires AllWellFormed(prices)
    ensures multiset(ResearchMany(prices, chain, universe, technical, anns))
         == multiset(CollectResearch(prices, chain, universe, technical, anns))
  {
    SortDescPermutes(CollectResearch(prices, chain, universe, technical, anns), ConfidenceKey);
  }

  /** No result when the universe cannot be read; otherwise one result for
      every announcement with a symbol and an event date. */
  lemma {:induction false} CollectResearchCount(prices: seq<PriceRow>, chain: seq<OptionRow>,
                                                universe: Option<seq<string>>, technical: TechnicalClassifier,
                                                anns: seq<Announcement>)
    requires AllWellFormed(prices)
    ensures universe.None? ==> CollectResearch(prices, chain, universe, technical, anns) == []
    ensures universe.Some? ==>
      |CollectResearch(prices, chain, universe, technical, anns)| == Researchable(anns)
  {
    if anns != [] {
      CollectResearchCount(prices, chain, universe, technical, anns[..|anns| - 1]);
    }
  }

  /** The number of announcements with a symbol and an event date. */
  function Researchable(anns: seq<Announcement>): nat {
    if anns == [] then 0
    else Researchable(anns[..|anns| - 1]) + (if anns[|anns| - 1].symbol != "" && anns[|anns| - 1].eventDate.Some? then 1 else 0)
  }
}
