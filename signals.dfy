/** The technical feature and score engine of app/services/signals.py: a
    per-symbol price history window, pandas column features (previous close,
    true range, 3-row rolling ATR and volume mean, volume spike, gap), the
    weighted "interest" score, and the ranking of all symbols for one date. */
module Signals {
  import opened Wrappers
  import opened Dates
  import opened Ranking

  const LookbackDaysDefault: int := 5
  /** pandas `rolling(window=3, min_periods=1)`. */
  const RollingWindow: nat := 3

  /** One row of the `daily_prices` table. */
  datatype PriceRow = PriceRow(symbol: string, date: Date, open: real, high: real,
                               low: real, close: real, volume: real)

  /** Exchange data: a positive close and a non-negative traded quantity
      (the model does not represent the infinities a zero close would give). */
  predicate WellFormed(r: PriceRow) { r.close > 0.0 && r.volume >= 0.0 }

  predicate AllWellFormed(rows: seq<PriceRow>) { forall r :: r in rows ==> WellFormed(r) }

  predicate HasRowOn(prices: seq<PriceRow>, symbol: string, d: Date) {
    exists r :: r in prices && r.symbol == symbol && r.date == d
  }

  // ---------------------------------------------------------------- history

  /** The query filter of `get_price_history`: the symbol's rows dated in
      [end - 2*lookback, end]. */
  predicate InWindow(r: PriceRow, symbol: string, endDate: Date, lookbackDays: int) {
    r.symbol == symbol && endDate - 2 * lookbackDays <= r.date <= endDate
  }

  function SelectWindow(prices: seq<PriceRow>, symbol: string, endDate: Date, lookbackDays: int)
    : (w: seq<PriceRow>)
    ensures forall r :: r in w <==> r in prices && InWindow(r, symbol, endDate, lookbackDays)
  {
    if prices == [] then []
    else
      assert prices == [prices[0]] + prices[1..];
      (if InWindow(prices[0], symbol, endDate, lookbackDays) then [prices[0]] else [])
      + SelectWindow(prices[1..], symbol, endDate, lookbackDays)
  }

  /** Sort key for ascending dates under the descending sort. */
  function NegDate(r: PriceRow): real { -(r.date as real) }

  /** `get_price_history`: exactly the rows of the window, in ascending date order. */
  function PriceHistory(prices: seq<PriceRow>, symbol: string, endDate: Date, lookbackDays: int)
    : (h: seq<PriceRow>)
    ensures forall r :: r in h <==> r in prices && InWindow(r, symbol, endDate, lookbackDays)
    ensures forall i, j :: 0 <= i < j < |h| ==> h[i].date <= h[j].date
    ensures h == [] <==> forall r :: r in prices ==> !InWindow(r, symbol, endDate, lookbackDays)
  {
    var w := SelectWindow(prices, symbol, endDate, lookbackDays);
    var h := SortDesc(w, NegDate);
    SortDescPermutes(w, NegDate);
    assert forall r :: r in h <==> r in multiset(w);
    assert forall i, j :: 0 <= i < j < |h| ==> NegDate(h[i]) >= NegDate(h[j]);
    h
  }

  // ---------------------------------------------------------------- features

  function Abs(x: real): real { if x < 0.0 then -x else x }
  function Max(a: real, b: real): real { if a < b then b else a }

  function Sum(xs: seq<real>): real
  {
    if xs == [] then 0.0 else Sum(xs[..|xs| - 1]) + xs[|xs| - 1]
  }

  lemma {:induction false} SumNonNegative(xs: seq<real>)
    requires forall k :: 0 <= k < |xs| ==> xs[k] >= 0.0
    ensures Sum(xs) >= 0.0
  {
    if xs != [] {
      var init := xs[..|xs| - 1];
      assert forall k :: 0 <= k < |init| ==> init[k] >= 0.0;
      SumNonNegative(init);
    }
  }

  function WindowStart(i: nat): nat { if i + 1 >= RollingWindow then i + 1 - RollingWindow else 0 }

  /** pandas `rolling(window=3, min_periods=1).mean()` at row `i`: the mean of
      rows max(0, i-2) .. i. */
  function RollingMean(xs: seq<real>, i: nat): real
    requires i < |xs|
  {
    var lo := WindowStart(i);
    Sum(xs[lo..i + 1]) / ((i + 1 - lo) as real)
  }

  /** The rolling mean of non-negative values is non-negative. */
  lemma RollingMeanNonNegative(xs: seq<real>, i: nat)
    requires i < |xs| && forall k :: 0 <= k < |xs| ==> xs[k] >= 0.0
    ensures RollingMean(xs, i) >= 0.0
  {
    var w := xs[WindowStart(i)..i + 1];
    assert forall k :: 0 <= k < |w| ==> w[k] >= 0.0;
    SumNonNegative(w);
  }

  function PrevClose(h: seq<PriceRow>, i: nat): real
    requires i < |h|
  {
    if i == 0 then h[0].close else h[i - 1].close
  }

  /** max(high - low, |high - prev_close|, |low - prev_close|). */
  function TrueRange(h: seq<PriceRow>, i: nat): (tr: real)
    requires i < |h|
    ensures tr >= 0.0
    ensures tr >= h[i].high - h[i].low
    ensures tr >= Abs(h[i].high - PrevClose(h, i)) && tr >= Abs(h[i].low - PrevClose(h, i))
    ensures tr == h[i].high - h[i].low || tr == Abs(h[i].high - PrevClose(h, i))
         || tr == Abs(h[i].low - PrevClose(h, i))
  {
    var pc := PrevClose(h, i);
    Max(Max(h[i].high - h[i].low, Abs(h[i].high - pc)), Abs(h[i].low - pc))
  }

  function TrueRanges(h: seq<PriceRow>): (trs: seq<real>)
    ensures |trs| == |h|
    ensures forall k :: 0 <= k < |h| ==> trs[k] == TrueRange(h, k) && trs[k] >= 0.0
  {
    seq(|h|, i requires 0 <= i < |h| => TrueRange(h, i))
  }

  function Volumes(h: seq<PriceRow>): (vs: seq<real>)
    ensures |vs| == |h|
    ensures forall k :: 0 <= k < |h| ==> vs[k] == h[k].volume
  {
    seq(|h|, i requires 0 <= i < |h| => h[i].volume)
  }

  /** The derived columns of one row; `ret` and `volSpike` are `None` where
      pandas produces NaN. */
  datatype FeatureRow = FeatureRow(row: PriceRow, ret: Option<real>, prevClose: real,
                                   trueRange: real, atr: real, atrPct: real, volMa: real,
                                   volSpike: Option<real>, gapPct: real)

  function FeaturesAt(h: seq<PriceRow>, i: nat): FeatureRow
    requires i < |h| && AllWellFormed(h)
  {
    assert WellFormed(h[i]) && WellFormed(h[if i == 0 then 0 else i - 1]);
    var pc := PrevClose(h, i);
    var atr := RollingMean(TrueRanges(h), i);
    var volMa := RollingMean(Volumes(h), i);
    FeatureRow(
      h[i],
      if i == 0 then None else Some(h[i].close / h[i - 1].close - 1.0),  // pct_change
      pc,
      TrueRange(h, i),
      atr,
      atr / h[i].close,
      volMa,
      if volMa == 0.0 then None else Some(h[i].volume / volMa),          // 0/0 is NaN
      (h[i].open - pc) / pc)
  }

  /** `compute_basic_features`. */
  function ComputeFeatures(h: seq<PriceRow>): (f: seq<FeatureRow>)
    requires AllWellFormed(h)
    ensures |f| == |h|
    ensures forall i :: 0 <= i < |h| ==> f[i] == FeaturesAt(h, i)
  {
    seq(|h|, i requires 0 <= i < |h| => FeaturesAt(h, i))
  }

  // ---------------------------------------------------------------- score

  /** The four features `score_row` reads; `None` is a NaN or missing entry. */
  datatype ScoreInputs = ScoreInputs(atrPct: Option<real>, volSpike: Option<real>,
                                     gapPct: Option<real>, ret: Option<real>)

  function AtrTerm(x: Option<real>): real { if x.Some? then x.value * 100.0 else 0.0 }
  function SpikeTerm(x: Option<real>): real { if x.Some? then Max(0.0, x.value - 1.0) * 2.0 else 0.0 }
  function MoveTerm(x: Option<real>): real { if x.Some? then Abs(x.value) * 10.0 else 0.0 }

  /** `score_row`: 100*atr_pct + 2*max(0, vol_spike - 1) + 10*|gap_pct| + 10*|return|,
      each missing term contributing nothing. */
  function ScoreRow(x: ScoreInputs): real {
    AtrTerm(x.atrPct) + SpikeTerm(x.volSpike) + MoveTerm(x.gapPct) + MoveTerm(x.ret)
  }

  function InputsOf(f: FeatureRow): ScoreInputs {
    ScoreInputs(Some(f.atrPct), f.volSpike, Some(f.gapPct), f.ret)
  }

  /** The result dictionary of `score_symbol_for_date`; `float(x or 0.0)` keeps a
      NaN, so `volSpike` and `ret` stay optional. */
  datatype SymbolScore = SymbolScore(symbol: string, date: Date, score: real, atrPct: real,
                                     volSpike: Option<real>, gapPct: real, ret: Option<real>)

  function ScoreKey(m: SymbolScore): real { m.score }

  function FirstOnDate(h: seq<PriceRow>, d: Date): (r: Option<nat>)
    ensures r.Some? ==> r.value < |h| && h[r.value].date == d
                        && forall j :: 0 <= j < r.value ==> h[j].date != d
    ensures r.None? ==> forall j :: 0 <= j < |h| ==> h[j].date != d
  {
    if h == [] then None
    else if h[0].date == d then Some(0)
    else match FirstOnDate(h[1..], d)
         case None => None
         case Some(k) => Some(k + 1)
  }

  lemma FeatureAtrPctNonNegative(h: seq<PriceRow>, i: nat)
    requires i < |h| && AllWellFormed(h)
    ensures FeaturesAt(h, i).atrPct >= 0.0 && FeaturesAt(h, i).atr >= 0.0
  {
    assert WellFormed(h[i]);
    RollingMeanNonNegative(TrueRanges(h), i);
  }

  /** The score dictionary of the history row at index `i`. */
  function ScoreAt(h: seq<PriceRow>, i: nat, symbol: string, target: Date): (m: SymbolScore)
    requires i < |h| && AllWellFormed(h)
    ensures m.symbol == symbol && m.date == target
    ensures m.atrPct >= 0.0 && m.score >= 0.0
  {
    var row := ComputeFeatures(h)[i];
    FeatureAtrPctNonNegative(h, i);
    SymbolScore(symbol, target, ScoreRow(InputsOf(row)), row.atrPct, row.volSpike, row.gapPct, row.ret)
  }

  /** `score_symbol_for_date`: `None` when the history has no row on the target date. */
  function ScoreSymbolForDate(prices: seq<PriceRow>, symbol: string, target: Date, lookbackDays: int)
    : (r: Option<SymbolScore>)
    requires AllWellFormed(prices)
    ensures r.Some? ==> r.value.symbol == symbol && r.value.date == target
    ensures r.Some? ==> r.value.atrPct >= 0.0 && r.value.score >= 0.0
  {
    var h := PriceHistory(prices, symbol, target, lookbackDays);
    HistoryHasTarget(prices, symbol, target, lookbackDays);
    match FirstOnDate(h, target)
    case None => None
    case Some(i) => Some(ScoreAt(h, i, symbol, target))
  }

  /** A symbol has a score for a date exactly when it has a price row on that
      date (and the lookback is not negative). */
  lemma ScoreDefinedIffRowOnDate(prices: seq<PriceRow>, symbol: string, target: Date, lookbackDays: int)
    requires AllWellFormed(prices)
    ensures lookbackDays >= 0 ==>
      (ScoreSymbolForDate(prices, symbol, target, lookbackDays).Some? <==> HasRowOn(prices, symbol, target))
    ensures lookbackDays < 0 ==> ScoreSymbolForDate(prices, symbol, target, lookbackDays).None?
  {
    HistoryHasTarget(prices, symbol, target, lookbackDays);
  }

  lemma HistoryHasTarget(prices: seq<PriceRow>, symbol: string, target: Date, lookbackDays: int)
    requires AllWellFormed(prices)
    ensures AllWellFormed(PriceHistory(prices, symbol, target, lookbackDays))
    ensures lookbackDays >= 0 ==>
      (FirstOnDate(PriceHistory(prices, symbol, target, lookbackDays), target).Some?
       <==> HasRowOn(prices, symbol, target))
    ensures lookbackDays < 0 ==> PriceHistory(prices, symbol, target, lookbackDays) == []
  {
    var h := PriceHistory(prices, symbol, target, lookbackDays);
    if lookbackDays >= 0 {
      if HasRowOn(prices, symbol, target) {
        var r :| r in prices && r.symbol == symbol && r.date == target;
        assert r in h;
      }
      if FirstOnDate(h, target).Some? {
        var i := FirstOnDate(h, target).value;
        assert h[i] in h;
      }
    }
  }

  // ---------------------------------------------------------------- all symbols

  /** The defined results of `score_symbol_for_date`, in symbol enumeration order. */
  function CollectScores(prices: seq<PriceRow>, symbols: seq<string>, target: Date, lookbackDays: int)
    : (rs: seq<SymbolScore>)
    requires AllWellFormed(prices)
    ensures |rs| <= |symbols|
    ensures forall x :: x in rs ==> x.score >= 0.0 && x.date == target
  {
    if symbols == [] then []
    else
      var rest := CollectScores(prices, symbols[..|symbols| - 1], target, lookbackDays);
      match ScoreSymbolForDate(prices, symbols[|symbols| - 1], target, lookbackDays)
      case None => rest
      case Some(m) => rest + [m]
  }

  /** Every collected result is the score of one of the symbols ... */
  lemma {:induction false} CollectScoresSound(prices: seq<PriceRow>, symbols: seq<string>, target: Date,
                                              lookbackDays: int, x: SymbolScore)
    requires AllWellFormed(prices)
    requires x in CollectScores(prices, symbols, target, lookbackDays)
    ensures exists k :: 0 <= k < |symbols| && ScoreSymbolForDate(prices, symbols[k], target, lookbackDays) == Some(x)
  {
    var init := symbols[..|symbols| - 1];
    var last := |symbols| - 1;
    var rest := CollectScores(prices, init, target, lookbackDays);
    if x in rest {
      CollectScoresSound(prices, init, target, lookbackDays, x);
      var k :| 0 <= k < |init| && ScoreSymbolForDate(prices, init[k], target, lookbackDays) == Some(x);
      assert symbols[k] == init[k];
    } else {
      assert ScoreSymbolForDate(prices, symbols[last], target, lookbackDays) == Some(x);
    }
  }

  /** ... and every symbol with a defined score is collected. */
  lemma {:induction false} CollectScoresComplete(prices: seq<PriceRow>, symbols: seq<string>, target: Date,
                                                 lookbackDays: int, k: nat)
    requires AllWellFormed(prices)
    requires k < |symbols| && ScoreSymbolForDate(prices, symbols[k], target, lookbackDays).Some?
    ensures ScoreSymbolForDate(prices, symbols[k], target, lookbackDays).value
            in CollectScores(prices, symbols, target, lookbackDays)
  {
    var init := symbols[..|symbols| - 1];
    if k < |symbols| - 1 {
      assert init[k] == symbols[k];
      CollectScoresComplete(prices, init, target, lookbackDays, k);
    }
  }

  /** `score_all_symbols_for_date`: the defined results sorted by descending
      score (stable), truncated to `limit`. */
  function ScoreAll(prices: seq<PriceRow>, symbols: seq<string>, target: Date, lookbackDays: int,
                    limit: int): seq<SymbolScore>
    requires AllWellFormed(prices)
  {
    Prefix(SortDesc(CollectScores(prices, symbols, target, lookbackDays), ScoreKey), limit)
  }

  method ScoreAllSymbolsForDate(prices: seq<PriceRow>, symbols: seq<string>, target: Date,
                                lookbackDays: int, limit: int)
    returns (results: seq<SymbolScore>)
    requires AllWellFormed(prices)
    ensures results == ScoreAll(prices, symbols, target, lookbackDays, limit)
    ensures limit >= 0 ==> |results| <= limit
    ensures |results| <= |symbols|
    ensures SortedDesc(results, ScoreKey)
    ensures forall x :: x in results ==> x.date == target && x.score >= 0.0
  {
    var collected: seq<SymbolScore> := [];
    for i := 0 to |symbols|
      invariant collected == CollectScores(prices, symbols[..i], target, lookbackDays)
    {
      var metrics := ScoreSymbolForDate(prices, symbols[i], target, lookbackDays);
      assert symbols[..i + 1][..i] == symbols[..i] && symbols[..i + 1][i] == symbols[i];
      if metrics.Some? {
        collected := collected + [metrics.value];
      }
    }
    assert symbols[..|symbols|] == symbols;
    results := Prefix(SortDesc(collected, ScoreKey), limit);
    ScoreAllShape(prices, symbols, target, lookbackDays, limit);
  }

  /** The ranking holds at most `limit` and at most one entry per symbol, in
      descending score order, each for the target date. */
  lemma ScoreAllShape(prices: seq<PriceRow>, symbols: seq<string>, target: Date, lookbackDays: int,
                      limit: int)
    requires AllWellFormed(prices)
    ensures var rs := ScoreAll(prices, symbols, target, lookbackDays, limit);
      && (limit >= 0 ==> |rs| <= limit)
      && |rs| <= |symbols|
      && SortedDesc(rs, ScoreKey)
      && forall x :: x in rs ==> x.date == target && x.score >= 0.0
  {
    var collected := CollectScores(prices, symbols, target, lookbackDays);
    SortedPrefixMembers(collected, ScoreKey, limit);
  }

  // ---------------------------------------------------------------- properties

  /** A one-row history is fully defined: its own close stands in for the
      previous close, ATR is the true range, and a traded row has spike 1.
      Only the return is NaN. */
  lemma {:induction false} SingleRowFeatures(r: PriceRow)
    requires WellFormed(r)
    ensures var f := ComputeFeatures([r])[0];
      && f.prevClose == r.close
      && f.ret.None?
      && f.atr == f.trueRange
      && f.atrPct == f.trueRange / r.close
      && f.gapPct == (r.open - r.close) / r.close
      && (r.volume != 0.0 ==> f.volSpike == Some(1.0))
  {
    var h := [r];
    assert TrueRanges(h)[0..1] == [TrueRange(h, 0)];
    assert Volumes(h)[0..1] == [r.volume];
    assert Sum([TrueRange(h, 0)]) == TrueRange(h, 0) by { assert [TrueRange(h, 0)][..0] == []; }
    assert Sum([r.volume]) == r.volume by { assert [r.volume][..0] == []; }
    assert RollingMean(Volumes(h), 0) == r.volume;
    assert RollingMean(TrueRanges(h), 0) == TrueRange(h, 0);
    var f := FeaturesAt(h, 0);
    assert f.volMa == r.volume;
    assert r.volume != 0.0 ==> r.volume / r.volume == 1.0;
    assert ComputeFeatures(h)[0] == f;
  }

  lemma {:induction false} SumAtLeastLast(xs: seq<real>)
    requires xs != [] && forall k :: 0 <= k < |xs| ==> xs[k] >= 0.0
    ensures Sum(xs) >= xs[|xs| - 1]
  {
    var init := xs[..|xs| - 1];
    assert forall k :: 0 <= k < |init| ==> init[k] >= 0.0;
    SumNonNegative(init);
  }

  lemma DivAtMost(a: real, m: real, n: real)
    requires 0.0 <= a <= m * n && m > 0.0
    ensures a / m <= n
  {
  }

  /** A volume spike is the row's volume over the mean of at most three
      non-negative volumes that include it, so it lies in [0, 3]. */
  lemma {:induction false} VolumeSpikeBounded(h: seq<PriceRow>, i: nat)
    requires i < |h| && AllWellFormed(h)
    ensures FeaturesAt(h, i).volSpike.Some? ==> 0.0 <= FeaturesAt(h, i).volSpike.value <= 3.0
  {
    var vs := Volumes(h);
    var lo := WindowStart(i);
    var w := vs[lo..i + 1];
    var n := (i + 1 - lo) as real;
    var s := Sum(w);
    assert forall k :: 0 <= k < |h| ==> WellFormed(h[k]);
    assert forall k :: 0 <= k < |w| ==> w[k] >= 0.0;
    SumAtLeastLast(w);
    var ma := RollingMean(vs, i);
    assert ma == s / n;
    if ma != 0.0 {
      assert s == ma * n;
      assert h[i].volume <= ma * n;
      DivAtMost(h[i].volume, ma, n);
      assert h[i].volume / ma <= n <= 3.0;
    }
  }

  /** One feature row dominates another when each score input is at least as
      large (the gap and the return in absolute value). */
  predicate Dominated(x: ScoreInputs, y: ScoreInputs) {
    && (x.atrPct.None? == y.atrPct.None?) && (x.atrPct.Some? ==> x.atrPct.value <= y.atrPct.value)
    && (x.volSpike.None? == y.volSpike.None?) && (x.volSpike.Some? ==> x.volSpike.value <= y.volSpike.value)
    && (x.gapPct.None? == y.gapPct.None?) && (x.gapPct.Some? ==> Abs(x.gapPct.value) <= Abs(y.gapPct.value))
    && (x.ret.None? == y.ret.None?) && (x.ret.Some? ==> Abs(x.ret.value) <= Abs(y.ret.value))
  }

  /** The score is monotone non-decreasing in atr_pct, vol_spike, |gap_pct| and |return|. */
  lemma ScoreMonotone(x: ScoreInputs, y: ScoreInputs)
    requires Dominated(x, y)
    ensures ScoreRow(x) <= ScoreRow(y)
  {
  }

  /** A missing entry adds nothing: dropping a term from a row with
      non-negative terms never raises its score. */
  lemma ScoreMissingTermsAddNothing(x: ScoreInputs)
    requires x.atrPct.None? || x.atrPct.value >= 0.0
    ensures ScoreRow(ScoreInputs(None, None, None, None)) == 0.0
    ensures 0.0 <= ScoreRow(x.(volSpike := None)) <= ScoreRow(x)
    ensures ScoreRow(x.(ret := None)) <= ScoreRow(x)
  {
  }

  /** Ties in score keep the symbols' enumeration order (Python's sort is stable)
      and truncation only drops a tail. */
  lemma {:induction false} ScoreAllTiesKeepOrder(prices: seq<PriceRow>, symbols: seq<string>, target: Date,
                                                 lookbackDays: int, limit: int, v: real)
    requires AllWellFormed(prices)
    ensures WithKey(ScoreAll(prices, symbols, target, lookbackDays, limit), ScoreKey, v)
         <= WithKey(CollectScores(prices, symbols, target, lookbackDays), ScoreKey, v)
  {
    var c := CollectScores(prices, symbols, target, lookbackDays);
    SortDescStable(c, ScoreKey, v);
    WithKeyPrefix(SortDesc(c, ScoreKey), limit, ScoreKey, v);
  }
}
