/** The database as the ingestion scripts see it through one SQLAlchemy session
    opened with autoflush off (app/db/sessions.py): queries read only committed
    rows, `add` stages a row, `commit` writes every staged row at once or
    fails on a unique constraint of app/db/models.py, and `rollback` drops
    the staged rows. A missing float (NaN) is `None`. */
module Store {
  import opened Wrappers
  import opened Dates

  datatype Stock = Stock(symbol: string, name: Option<string>, segment: Option<string>)

  datatype DailyPrice = DailyPrice(symbol: string, date: Date, open: Option<real>, high: Option<real>,
                                   low: Option<real>, close: Option<real>, volume: Option<real>)

  datatype OptionContract = OptionContract(symbol: string, date: Date, expiry: Date, strike: Option<real>,
                                           optionType: string, ltp: Option<real>, oi: Option<real>,
                                           volume: Option<real>)

  /** The columns of a `BSEEvent` row that the NSE ingestion writes. */
  datatype EventRow = EventRow(symbol: string, eventDate: Date, headline: string, category: string,
                               source: string)

  /** The natural key of an option row: (symbol, date, expiry, strike, type). */
  datatype ContractKey = ContractKey(symbol: string, date: Date, expiry: Date, strike: Option<real>,
                                     optionType: string)

  function KeyOfContract(c: OptionContract): ContractKey {
    ContractKey(c.symbol, c.date, c.expiry, c.strike, c.optionType)
  }

  /** `stocks.symbol` is unique. */
  predicate SymbolsUnique(ss: seq<Stock>) {
    forall i, j :: 0 <= i < j < |ss| ==> ss[i].symbol != ss[j].symbol
  }

  /** `daily_prices` is unique on (symbol, date). */
  predicate PriceKeysUnique(ps: seq<DailyPrice>) {
    forall i, j :: 0 <= i < j < |ps| ==> ps[i].symbol != ps[j].symbol || ps[i].date != ps[j].date
  }

  function SymbolSet(ss: seq<Stock>): set<string> {
    set s | s in ss :: s.symbol
  }

  function PriceKeySet(ps: seq<DailyPrice>): set<(string, Date)> {
    set p | p in ps :: (p.symbol, p.date)
  }

  function ContractKeySet(cs: seq<OptionContract>): set<ContractKey> {
    set c | c in cs :: KeyOfContract(c)
  }

  function EventKeySet(es: seq<EventRow>): set<(string, string)> {
    set e | e in es :: (e.symbol, e.headline)
  }

  /** The symbols of `syms` that are not in `known`, each once, in the order
      they first occur: what a loop stages when it adds every symbol it
      stages to the set it checks against. */
  function FirstSeen(known: set<string>, syms: seq<string>): (r: seq<string>)
    ensures forall s :: s in r <==> s in syms && s !in known
  {
    if syms == [] then []
    else
      var p := FirstSeen(known, syms[..|syms| - 1]);
      var s := syms[|syms| - 1];
      assert syms == syms[..|syms| - 1] + [s];
      if s in known || s in p then p else p + [s]
  }

  predicate Distinct(ss: seq<string>) {
    forall i, j :: 0 <= i < j < |ss| ==> ss[i] != ss[j]
  }

  lemma {:induction false} FirstSeenDistinct(known: set<string>, syms: seq<string>)
    ensures Distinct(FirstSeen(known, syms))
  {
    if syms != [] {
      FirstSeenDistinct(known, syms[..|syms| - 1]);
    }
  }

  /** No symbol is first seen when every symbol is known. */
  lemma {:induction false} FirstSeenAllKnown(known: set<string>, syms: seq<string>)
    requires forall s :: s in syms ==> s in known
    ensures FirstSeen(known, syms) == []
  {
    if syms != [] {
      assert syms[|syms| - 1] in syms;
      FirstSeenAllKnown(known, syms[..|syms| - 1]);
    }
  }

  /** Staging one new stock per first-seen symbol keeps `stocks.symbol` unique. */
  lemma StagingFirstSeenKeepsUnique(stocks: seq<Stock>, syms: seq<string>, segment: string)
    requires SymbolsUnique(stocks)
    ensures SymbolsUnique(stocks + NewStocks(FirstSeen(SymbolSet(stocks), syms), segment))
  {
    var added := FirstSeen(SymbolSet(stocks), syms);
    FirstSeenDistinct(SymbolSet(stocks), syms);
    var all := stocks + NewStocks(added, segment);
    forall i, j | 0 <= i < j < |all|
      ensures all[i].symbol != all[j].symbol
    {
      if j < |stocks| {
        assert all[i] == stocks[i] && all[j] == stocks[j];
      } else {
        assert all[j].symbol == added[j - |stocks|] && added[j - |stocks|] in added;
        if i < |stocks| {
          assert all[i] == stocks[i] && all[i].symbol in SymbolSet(stocks);
        } else {
          assert all[i].symbol == added[i - |stocks|];
        }
      }
    }
  }

  lemma AppendNothing<T>(s: seq<T>)
    ensures s + [] == s
  {
  }

  /** `Stock(symbol=s, name=None, segment=segment)` for each symbol. */
  function NewStocks(syms: seq<string>, segment: string): (r: seq<Stock>)
    ensures |r| == |syms|
    ensures forall i :: 0 <= i < |syms| ==> r[i] == Stock(syms[i], None, Some(segment))
  {
    seq(|syms|, i requires 0 <= i < |syms| => Stock(syms[i], None, Some(segment)))
  }

  class Session {
    var stocks: seq<Stock>
    var prices: seq<DailyPrice>
    var options: seq<OptionContract>
    var events: seq<EventRow>
    var newStocks: seq<Stock>
    var newPrices: seq<DailyPrice>
    var newOptions: seq<OptionContract>
    var newEvents: seq<EventRow>

    /** The committed tables satisfy the unique constraints. */
    ghost predicate Valid()
      reads this
    {
      SymbolsUnique(stocks) && PriceKeysUnique(prices)
    }

    constructor (stocks: seq<Stock>, prices: seq<DailyPrice>, options: seq<OptionContract>,
                 events: seq<EventRow>)
      requires SymbolsUnique(stocks) && PriceKeysUnique(prices)
      ensures Valid() && NothingPending()
      ensures this.stocks == stocks && this.prices == prices && this.options == options && this.events == events
    {
      this.stocks := stocks;
      this.prices := prices;
      this.options := options;
      this.events := events;
      newStocks := [];
      newPrices := [];
      newOptions := [];
      newEvents := [];
    }

    predicate NothingPending()
      reads this
    {
      newStocks == [] && newPrices == [] && newOptions == [] && newEvents == []
    }

    /** The committed stock symbols. */
    function StockSymbols(): set<string>
      reads this
    {
      SymbolSet(stocks)
    }

    /** The committed (symbol, date) pairs of `daily_prices`. */
    function PriceKeys(): set<(string, Date)>
      reads this
    {
      PriceKeySet(prices)
    }

    function ContractKeys(): set<ContractKey>
      reads this
    {
      ContractKeySet(options)
    }

    /** The committed (symbol, headline) pairs of the events table. */
    function EventKeys(): set<(string, string)>
      reads this
    {
      EventKeySet(events)
    }

    method AddStock(s: Stock)
      modifies this
      ensures newStocks == old(newStocks) + [s]
      ensures stocks == old(stocks) && prices == old(prices) && options == old(options) && events == old(events)
      ensures newPrices == old(newPrices) && newOptions == old(newOptions) && newEvents == old(newEvents)
    {
      newStocks := newStocks + [s];
    }

    method AddPrice(p: DailyPrice)
      modifies this
      ensures newPrices == old(newPrices) + [p]
      ensures stocks == old(stocks) && prices == old(prices) && options == old(options) && events == old(events)
      ensures newStocks == old(newStocks) && newOptions == old(newOptions) && newEvents == old(newEvents)
    {
      newPrices := newPrices + [p];
    }

    method AddOption(c: OptionContract)
      modifies this
      ensures newOptions == old(newOptions) + [c]
      ensures stocks == old(stocks) && prices == old(prices) && options == old(options) && events == old(events)
      ensures newStocks == old(newStocks) && newPrices == old(newPrices) && newEvents == old(newEvents)
    {
      newOptions := newOptions + [c];
    }

    method AddEvent(e: EventRow)
      modifies this
      ensures newEvents == old(newEvents) + [e]
      ensures stocks == old(stocks) && prices == old(prices) && options == old(options) && events == old(events)
      ensures newStocks == old(newStocks) && newPrices == old(newPrices) && newOptions == old(newOptions)
    {
      newEvents := newEvents + [e];
    }

    /** The staged rows can be written without breaking a unique constraint. */
    predicate CanCommit()
      reads this
    {
      SymbolsUnique(stocks + newStocks) && PriceKeysUnique(prices + newPrices)
    }

    /** `commit`: all staged rows are written, or none and the session is left
        as it was (the caller then rolls back). */
    method Commit() returns (ok: bool)
      requires Valid()
      modifies this
      ensures Valid()
      ensures ok == old(CanCommit())
      ensures ok ==> stocks == old(stocks + newStocks) && prices == old(prices + newPrices)
                     && options == old(options + newOptions) && events == old(events + newEvents)
                     && NothingPending()
      ensures !ok ==> stocks == old(stocks) && prices == old(prices) && options == old(options)
                      && events == old(events) && newStocks == old(newStocks) && newPrices == old(newPrices)
                      && newOptions == old(newOptions) && newEvents == old(newEvents)
    {
      ok := CanCommit();
      if ok {
        stocks := stocks + newStocks;
        prices := prices + newPrices;
        options := options + newOptions;
        events := events + newEvents;
        newStocks, newPrices, newOptions, newEvents := [], [], [], [];
      }
    }

    /** `rollback`: the staged rows are dropped. */
    method Rollback()
      modifies this
      ensures NothingPending()
      ensures stocks == old(stocks) && prices == old(prices) && options == old(options) && events == old(events)
    {
      newStocks, newPrices, newOptions, newEvents := [], [], [], [];
    }
  }
}
