/** Candidate selection of app/candidate/candidate_access.py: the equity
    ranking joined with options liquidity and an open-interest / volume floor. */
module Candidates {
  import opened Wrappers
  import opened Dates
  import opened Ranking
  import opened Signals
  import opened Options

  /** The base ranking is computed with a 5-day lookback and a limit of 500. */
  const BaseLookbackDays: int := 5
  const BaseLimit: int := 500
  /** Liquidity is measured within 10% of spot. */
  const CandidateBand: real := 0.1

  /** A scored symbol with its liquidity merged in. */
  datatype Candidate = Candidate(metrics: SymbolScore, spot: real, expiry: Date,
                                 totalOi: real, totalVolume: real)

  function CandidateScore(c: Candidate): real { c.metrics.score }

  /** A symbol is dropped only when it is below BOTH floors. */
  predicate PassesFloor(totalOi: real, totalVolume: real, minOi: real, minVolume: real) {
    !(totalOi < minOi && totalVolume < minVolume)
  }

  /** One iteration of the candidate loop. */
  function Qualify(prices: seq<PriceRow>, chain: seq<OptionRow>, m: SymbolScore, d: Date,
                   minOi: real, minVolume: real): (c: Option<Candidate>)
    ensures var liq := OptionsLiquidity(prices, chain, m.symbol, d, CandidateBand);
            c.Some? <==> liq.Some? && PassesFloor(liq.value.totalOi, liq.value.totalVolume, minOi, minVolume)
    ensures c.Some? ==> c.value.metrics == m && c.value.spot > 0.0 && c.value.expiry >= d
    ensures var liq := OptionsLiquidity(prices, chain, m.symbol, d, CandidateBand);
            c.Some? ==> c.value.totalOi == liq.value.totalOi && c.value.totalVolume == liq.value.totalVolume
  {
    var liq := OptionsLiquidity(prices, chain, m.symbol, d, CandidateBand);
    if liq.None? then None
    else if liq.value.totalOi < minOi && liq.value.totalVolume < minVolume then None
    else Some(Candidate(m, liq.value.spot, liq.value.expiry, liq.value.totalOi, liq.value.totalVolume))
  }

  /** The qualifying entries of `base`, in base order. */
  function FilterCandidates(prices: seq<PriceRow>, chain: seq<OptionRow>, base: seq<SymbolScore>, d: Date,
                            minOi: real, minVolume: real): (cs: seq<Candidate>)
    ensures |cs| <= |base|
    ensures forall c :: c in cs ==> c.metrics in base && Qualify(prices, chain, c.metrics, d, minOi, minVolume) == Some(c)
  {
    if base == [] then []
    else
      var init := base[..|base| - 1];
      var rest := FilterCandidates(prices, chain, init, d, minOi, minVolume);
      assert forall m :: m in init ==> m in base;
      match Qualify(prices, chain, base[|base| - 1], d, minOi, minVolume)
      case None => rest
      case Some(c) => rest + [c]
  }

  function MetricsOf(c: Candidate): SymbolScore { c.metrics }

  /** The candidates' score rows appear in the base ranking, in its order. */
  lemma {:induction false} FilterCandidatesSubsequence(prices: seq<PriceRow>, chain: seq<OptionRow>,
                                                       base: seq<SymbolScore>, d: Date, minOi: real, minVolume: real)
    ensures Subsequence(Map(MetricsOf, FilterCandidates(prices, chain, base, d, minOi, minVolume)), base)
  {
    if base != [] {
      var init := base[..|base| - 1];
      var last := base[|base| - 1];
      FilterCandidatesSubsequence(prices, chain, init, d, minOi, minVolume);
      var rest := Map(MetricsOf, FilterCandidates(prices, chain, init, d, minOi, minVolume));
      assert init + [last] == base;
      var q := Qualify(prices, chain, last, d, minOi, minVolume);
      if q.Some? {
        MapSnoc(MetricsOf, FilterCandidates(prices, chain, init, d, minOi, minVolume), q.value);
        SubsequenceKeepLast(rest, init, last);
      } else {
        SubsequenceExtend(rest, init, last);
      }
    }
  }

  /** Every qualifying entry of the base ranking is a candidate. */
  lemma {:induction false} FilterCandidatesComplete(prices: seq<PriceRow>, chain: seq<OptionRow>,
                                                    base: seq<SymbolScore>, d: Date, minOi: real, minVolume: real,
                                                    i: nat)
    requires i < |base| && Qualify(prices, chain, base[i], d, minOi, minVolume).Some?
    ensures Qualify(prices, chain, base[i], d, minOi, minVolume).value
            in FilterCandidates(prices, chain, base, d, minOi, minVolume)
  {
    if i < |base| - 1 {
      var init := base[..|base| - 1];
      assert init[i] == base[i];
      FilterCandidatesComplete(prices, chain, init, d, minOi, minVolume, i);
    }
  }

  /** `get_top_candidates_for_date`. */
  function TopCandidates(prices: seq<PriceRow>, chain: seq<OptionRow>, symbols: seq<string>, d: Date,
                         limit: int, minOi: real, minVolume: real): seq<Candidate>
    requires AllWellFormed(prices)
  {
    var base := ScoreAll(prices, symbols, d, BaseLookbackDays, BaseLimit);
    Prefix(SortDesc(FilterCandidates(prices, chain, base, d, minOi, minVolume), CandidateScore), limit)
  }

  method GetTopCandidatesForDate(prices: seq<PriceRow>, chain: seq<OptionRow>, symbols: seq<string>,
                                 d: Date, limit: int, minOi: real, minVolume: real)
    returns (top: seq<Candidate>)
    requires AllWellFormed(prices)
    ensures top == TopCandidates(prices, chain, symbols, d, limit, minOi, minVolume)
    ensures limit >= 0 ==> |top| <= limit
    ensures |top| <= BaseLimit
    ensures SortedDesc(top, CandidateScore)
  {
    var base := ScoreAllSymbolsForDate(prices, symbols, d, BaseLookbackDays, BaseLimit);
    var filtered: seq<Candidate> := [];
    for i := 0 to |base|
      invariant filtered == FilterCandidates(prices, chain, base[..i], d, minOi, minVolume)
    {
      ghost var b := base[..i + 1];
      assert b[..|b| - 1] == base[..i] && b[|b| - 1] == base[i];
      ghost var q := Qualify(prices, chain, base[i], d, minOi, minVolume);
      var liq := OptionsLiquidity(prices, chain, base[i].symbol, d, CandidateBand);
      if liq.None? {
        assert q.None?;
        continue;
      }
      if liq.value.totalOi < minOi && liq.value.totalVolume < minVolume {
        assert q.None?;
        continue;
      }
      var c := Candidate(base[i], liq.value.spot, liq.value.expiry, liq.value.totalOi, liq.value.totalVolume);
      assert q == Some(c);
      filtered := filtered + [c];
    }
    assert base[..|base|] == base;
    top := Prefix(SortDesc(filtered, CandidateScore), limit);
    TopCandidatesShape(prices, chain, symbols, d, limit, minOi, minVolume);
  }

  /** At most `limit` and at most 500 candidates, in descending score order. */
  lemma TopCandidatesShape(prices: seq<PriceRow>, chain: seq<OptionRow>, symbols: seq<string>,
                           d: Date, limit: int, minOi: real, minVolume: real)
    requires AllWellFormed(prices)
    ensures var top := TopCandidates(prices, chain, symbols, d, limit, minOi, minVolume);
      && (limit >= 0 ==> |top| <= limit)
      && |top| <= BaseLimit
      && SortedDesc(top, CandidateScore)
  {
    ScoreAllShape(prices, symbols, d, BaseLookbackDays, BaseLimit);
  }

  /** Filtering a score-sorted base keeps it sorted by score. */
  lemma {:induction false} FilterKeepsOrder(prices: seq<PriceRow>, chain: seq<OptionRow>, base: seq<SymbolScore>,
                                            d: Date, minOi: real, minVolume: real)
    requires SortedDesc(base, ScoreKey)
    ensures SortedDesc(FilterCandidates(prices, chain, base, d, minOi, minVolume), CandidateScore)
  {
    if base != [] {
      var init := base[..|base| - 1];
      var last := base[|base| - 1];
      assert SortedDesc(init, ScoreKey);
      FilterKeepsOrder(prices, chain, init, d, minOi, minVolume);
      var rest := FilterCandidates(prices, chain, init, d, minOi, minVolume);
      forall k | 0 <= k < |rest| ensures CandidateScore(rest[k]) >= last.score {
        assert rest[k] in rest;
        var j :| 0 <= j < |init| && init[j] == rest[k].metrics;
        assert base[j] == init[j];
      }
      var q := Qualify(prices, chain, last, d, minOi, minVolume);
      if q.Some? {
        SortedDescAppend(rest, q.value, CandidateScore);
      }
    }
  }

  /** The second sort ("just in case") changes nothing: the result is the
      qualifying prefix of the base ranking in its own order. */
  lemma TopCandidatesKeepBaseOrder(prices: seq<PriceRow>, chain: seq<OptionRow>, symbols: seq<string>,
                                   d: Date, limit: int, minOi: real, minVolume: real)
    requires AllWellFormed(prices)
    ensures TopCandidates(prices, chain, symbols, d, limit, minOi, minVolume)
         == Prefix(FilterCandidates(prices, chain, ScoreAll(prices, symbols, d, BaseLookbackDays, BaseLimit),
                                    d, minOi, minVolume), limit)
  {
    var base := ScoreAll(prices, symbols, d, BaseLookbackDays, BaseLimit);
    ScoreAllShape(prices, symbols, d, BaseLookbackDays, BaseLimit);
    FilterKeepsOrder(prices, chain, base, d, minOi, minVolume);
    SortDescOfSorted(FilterCandidates(prices, chain, base, d, minOi, minVolume), CandidateScore);
  }

  /** Every candidate comes from the base ranking, has a live option chain and
      clears at least one floor; with zero floors and non-negative activity
      every liquid symbol of the base ranking qualifies. */
  lemma TopCandidatesQualify(prices: seq<PriceRow>, chain: seq<OptionRow>, symbols: seq<string>,
                             d: Date, limit: int, minOi: real, minVolume: real)
    requires AllWellFormed(prices)
    ensures forall c :: c in TopCandidates(prices, chain, symbols, d, limit, minOi, minVolume) ==>
      && c.metrics in ScoreAll(prices, symbols, d, BaseLookbackDays, BaseLimit)
      && (c.totalOi >= minOi || c.totalVolume >= minVolume)
      && OptionsLiquidity(prices, chain, c.metrics.symbol, d, CandidateBand).Some?
  {
    var base := ScoreAll(prices, symbols, d, BaseLookbackDays, BaseLimit);
    TopOfFilterQualify(prices, chain, base, d, limit, minOi, minVolume);
  }

  lemma TopOfFilterQualify(prices: seq<PriceRow>, chain: seq<OptionRow>, base: seq<SymbolScore>,
                           d: Date, limit: int, minOi: real, minVolume: real)
    ensures forall c :: c in Prefix(SortDesc(FilterCandidates(prices, chain, base, d, minOi, minVolume),
                                             CandidateScore), limit) ==>
      && c.metrics in base
      && (c.totalOi >= minOi || c.totalVolume >= minVolume)
      && OptionsLiquidity(prices, chain, c.metrics.symbol, d, CandidateBand).Some?
  {
    var f := FilterCandidates(prices, chain, base, d, minOi, minVolume);
    SortedPrefixMembers(f, CandidateScore, limit);
    forall c | c in Prefix(SortDesc(f, CandidateScore), limit)
      ensures c.metrics in base && (c.totalOi >= minOi || c.totalVolume >= minVolume)
      ensures OptionsLiquidity(prices, chain, c.metrics.symbol, d, CandidateBand).Some?
    {
      assert c in f;
      assert Qualify(prices, chain, c.metrics, d, minOi, minVolume) == Some(c);
    }
  }

  lemma {:induction false} ZeroFloorsKeepLiquid(prices: seq<PriceRow>, chain: seq<OptionRow>, base: seq<SymbolScore>,
                                                d: Date, m: SymbolScore)
    requires NonNegativeActivity(chain)
    requires m in base && OptionsLiquidity(prices, chain, m.symbol, d, CandidateBand).Some?
    ensures exists c :: c in FilterCandidates(prices, chain, base, d, 0.0, 0.0) && c.metrics == m
  {
    var init := base[..|base| - 1];
    if m in init {
      ZeroFloorsKeepLiquid(prices, chain, init, d, m);
      var c :| c in FilterCandidates(prices, chain, init, d, 0.0, 0.0) && c.metrics == m;
      assert c in FilterCandidates(prices, chain, base, d, 0.0, 0.0);
    } else {
      assert base == init + [base[|base| - 1]];
      LiquidityReportedIsLive(prices, chain, m.symbol, d, CandidateBand);
      var c := Qualify(prices, chain, m, d, 0.0, 0.0).value;
      assert FilterCandidates(prices, chain, base, d, 0.0, 0.0)
          == FilterCandidates(prices, chain, init, d, 0.0, 0.0) + [c];
    }
  }
}
