/** Options liquidity of app/services/options.py: the spot proxy from
    `daily_prices`, the nearest listed expiry, and the open interest and
    volume summed over the strikes inside a moneyness band around spot. */
module Options {
  import opened Wrappers
  import opened Dates
  import opened Signals

  /** One row of the `option_chain` table; nullable columns are optional. */
  datatype OptionRow = OptionRow(symbol: string, date: Date, expiry: Date, strike: real,
                                 optionType: string, ltp: Option<real>, iv: Option<real>,
                                 oi: Option<real>, volume: Option<real>)

  /** `get_spot_price`: the close of the symbol's `daily_prices` row on that date
      (the (symbol, date) unique constraint makes it the only one). */
  function SpotPrice(prices: seq<PriceRow>, symbol: string, d: Date): (r: Option<real>)
    ensures r.Some? <==> HasRowOn(prices, symbol, d)
    ensures r.Some? ==> exists p :: p in prices && p.symbol == symbol && p.date == d && p.close == r.value
  {
    if prices == [] then None
    else if prices[0].symbol == symbol && prices[0].date == d then Some(prices[0].close)
    else
      var r := SpotPrice(prices[1..], symbol, d);
      assert forall p :: p in prices[1..] ==> p in prices;
      assert HasRowOn(prices, symbol, d) ==> HasRowOn(prices[1..], symbol, d);
      r
  }

  /** The rows `get_nearest_expiry` ranges over: listed on `d`, not yet expired. */
  predicate Live(r: OptionRow, symbol: string, d: Date) {
    r.symbol == symbol && r.date == d && r.expiry >= d
  }

  /** `get_nearest_expiry`: the minimum expiry among the live rows, `None` when
      there are none. */
  function NearestExpiry(chain: seq<OptionRow>, symbol: string, d: Date): (e: Option<Date>)
    ensures e.None? <==> forall r :: r in chain ==> !Live(r, symbol, d)
    ensures e.Some? ==> (exists r :: r in chain && Live(r, symbol, d) && r.expiry == e.value)
                        && forall r :: r in chain && Live(r, symbol, d) ==> e.value <= r.expiry
    ensures e.Some? ==> e.value >= d
  {
    if chain == [] then None
    else
      var rest := NearestExpiry(chain[1..], symbol, d);
      assert forall r :: r in chain ==> r == chain[0] || r in chain[1..];
      if !Live(chain[0], symbol, d) then rest
      else if rest.None? || chain[0].expiry <= rest.value then Some(chain[0].expiry)
      else rest
  }

  /** A row counted by the liquidity sum. */
  predicate InBand(r: OptionRow, symbol: string, d: Date, expiry: Date, lower: real, upper: real) {
    r.symbol == symbol && r.date == d && r.expiry == expiry && lower <= r.strike <= upper
  }

  function OiOf(r: OptionRow): Option<real> { r.oi }
  function VolumeOf(r: OptionRow): Option<real> { r.volume }

  /** `coalesce(sum(column), 0)` over the rows in the band: NULL entries are
      skipped by SQL's SUM, and an empty sum is 0. */
  function BandTotal(chain: seq<OptionRow>, column: OptionRow -> Option<real>, symbol: string, d: Date,
                     expiry: Date, lower: real, upper: real): real
  {
    if chain == [] then 0.0
    else
      (if InBand(chain[0], symbol, d, expiry, lower, upper) && column(chain[0]).Some?
       then column(chain[0]).value else 0.0)
      + BandTotal(chain[1..], column, symbol, d, expiry, lower, upper)
  }

  /** Open interest and traded volume are never negative. */
  predicate NonNegativeActivity(chain: seq<OptionRow>) {
    forall r :: r in chain ==> (r.oi.None? || r.oi.value >= 0.0) && (r.volume.None? || r.volume.value >= 0.0)
  }

  datatype Liquidity = Liquidity(symbol: string, date: Date, spot: real, expiry: Date,
                                 totalOi: real, totalVolume: real)

  /** The strike band `spot * (1 - band)` .. `spot * (1 + band)`. */
  function BandLow(spot: real, band: real): real { spot * (1.0 - band) }
  function BandHigh(spot: real, band: real): real { spot * (1.0 + band) }

  /** No open interest and no volume within `band` of `spot` for that expiry. */
  predicate Dead(chain: seq<OptionRow>, symbol: string, d: Date, expiry: Date, spot: real, band: real) {
    && BandTotal(chain, OiOf, symbol, d, expiry, BandLow(spot, band), BandHigh(spot, band)) == 0.0
    && BandTotal(chain, VolumeOf, symbol, d, expiry, BandLow(spot, band), BandHigh(spot, band)) == 0.0
  }

  /** `get_options_liquidity`: `None` without a positive spot, without a live
      expiry, or when the band is completely dead. */
  function OptionsLiquidity(prices: seq<PriceRow>, chain: seq<OptionRow>, symbol: string, d: Date,
                            band: real): (l: Option<Liquidity>)
    ensures var spot := SpotPrice(prices, symbol, d);
            var expiry := NearestExpiry(chain, symbol, d);
            l.Some? <==> spot.Some? && spot.value > 0.0 && expiry.Some?
                         && !Dead(chain, symbol, d, expiry.value, spot.value, band)
    ensures l.Some? ==> && l.value.symbol == symbol && l.value.date == d
                        && Some(l.value.spot) == SpotPrice(prices, symbol, d) && l.value.spot > 0.0
                        && Some(l.value.expiry) == NearestExpiry(chain, symbol, d) && l.value.expiry >= d
  {
    var spot := SpotPrice(prices, symbol, d);
    if spot.None? || spot.value <= 0.0 then None
    else
      var expiry := NearestExpiry(chain, symbol, d);
      if expiry.None? then None
      else
        var lower := BandLow(spot.value, band);
        var upper := BandHigh(spot.value, band);
        var totalOi := BandTotal(chain, OiOf, symbol, d, expiry.value, lower, upper);
        var totalVolume := BandTotal(chain, VolumeOf, symbol, d, expiry.value, lower, upper);
        if totalOi == 0.0 && totalVolume == 0.0 then
          assert Dead(chain, symbol, d, expiry.value, spot.value, band);
          None
        else
          assert !Dead(chain, symbol, d, expiry.value, spot.value, band);
          Some(Liquidity(symbol, d, spot.value, expiry.value, totalOi, totalVolume))
  }

  /** A reported liquidity is live: non-negative totals, not both zero. */
  lemma LiquidityReportedIsLive(prices: seq<PriceRow>, chain: seq<OptionRow>, symbol: string, d: Date,
                                band: real)
    requires NonNegativeActivity(chain)
    requires OptionsLiquidity(prices, chain, symbol, d, band).Some?
    ensures var l := OptionsLiquidity(prices, chain, symbol, d, band).value;
            l.totalOi >= 0.0 && l.totalVolume >= 0.0 && l.totalOi + l.totalVolume > 0.0
  {
    var l := OptionsLiquidity(prices, chain, symbol, d, band).value;
    var lower := BandLow(l.spot, band);
    var upper := BandHigh(l.spot, band);
    BandTotalMonotone(chain, OiOf, symbol, d, l.expiry, lower, upper, lower, upper);
    BandTotalMonotone(chain, VolumeOf, symbol, d, l.expiry, lower, upper, lower, upper);
  }

  /** Widening the strike band never lowers a non-negative total; with an empty
      inner band this is also non-negativity. */
  lemma {:induction false} BandTotalMonotone(chain: seq<OptionRow>, column: OptionRow -> Option<real>,
                                             symbol: string, d: Date, expiry: Date,
                                             lower1: real, upper1: real, lower2: real, upper2: real)
    requires forall r :: r in chain ==> column(r).None? || column(r).value >= 0.0
    requires lower2 <= lower1 || upper1 < lower1
    requires upper1 <= upper2 || upper1 < lower1
    ensures 0.0 <= BandTotal(chain, column, symbol, d, expiry, lower1, upper1)
                <= BandTotal(chain, column, symbol, d, expiry, lower2, upper2)
  {
    if chain != [] {
      assert chain[0] in chain;
      assert forall r :: r in chain[1..] ==> r in chain;
      BandTotalMonotone(chain[1..], column, symbol, d, expiry, lower1, upper1, lower2, upper2);
    }
  }

  /** Once spot and expiry are known, a band's liquidity is its two totals,
      reported unless both are zero. */
  lemma LiquidityInBand(prices: seq<PriceRow>, chain: seq<OptionRow>, symbol: string, d: Date, band: real,
                        spot: real, e: Date)
    requires SpotPrice(prices, symbol, d) == Some(spot) && spot > 0.0
    requires NearestExpiry(chain, symbol, d) == Some(e)
    ensures var oi := BandTotal(chain, OiOf, symbol, d, e, BandLow(spot, band), BandHigh(spot, band));
            var vol := BandTotal(chain, VolumeOf, symbol, d, e, BandLow(spot, band), BandHigh(spot, band));
            OptionsLiquidity(prices, chain, symbol, d, band)
            == if oi == 0.0 && vol == 0.0 then None else Some(Liquidity(symbol, d, spot, e, oi, vol))
  {
  }

  /** A symbol liquid in a band is liquid in any wider band, with at least the
      same totals: the wider retry of the researcher can only add strikes. */
  lemma LiquidityWidens(prices: seq<PriceRow>, chain: seq<OptionRow>, symbol: string, d: Date,
                        band1: real, band2: real)
    requires NonNegativeActivity(chain)
    requires 0.0 <= band1 <= band2
    requires OptionsLiquidity(prices, chain, symbol, d, band1).Some?
    ensures OptionsLiquidity(prices, chain, symbol, d, band2).Some?
    ensures OptionsLiquidity(prices, chain, symbol, d, band1).value.totalOi
         <= OptionsLiquidity(prices, chain, symbol, d, band2).value.totalOi
    ensures OptionsLiquidity(prices, chain, symbol, d, band1).value.totalVolume
         <= OptionsLiquidity(prices, chain, symbol, d, band2).value.totalVolume
  {
    var spot := SpotPrice(prices, symbol, d).value;
    var e := NearestExpiry(chain, symbol, d).value;
    var lo1, hi1 := BandLow(spot, band1), BandHigh(spot, band1);
    var lo2, hi2 := BandLow(spot, band2), BandHigh(spot, band2);
    assert lo2 <= lo1 by {
      assert spot * (band2 - band1) >= 0.0;
    }
    assert hi1 <= hi2 by {
      assert spot * (band2 - band1) >= 0.0;
    }
    LiquidityInBand(prices, chain, symbol, d, band1, spot, e);
    LiquidityInBand(prices, chain, symbol, d, band2, spot, e);
    BandTotalMonotone(chain, OiOf, symbol, d, e, lo1, hi1, lo2, hi2);
    BandTotalMonotone(chain, VolumeOf, symbol, d, e, lo1, hi1, lo2, hi2);
  }
}
