/** scripts/ingest_fno_db.py: loads one headerless NSE F&O bhavcopy into
    `option_chain`. Stock-option rows (OPTSTK) are parsed column by column,
    each underlying missing from `stocks` is staged as a new stock, contracts
    already stored under their natural key are skipped, and everything is
    committed at once or rolled back. */
module FnoIngest {
  import opened Wrappers
  import opened Dates
  import opened Text
  import opened Cells
  import opened Store

  /** The five price columns `price_1` … `price_5` (positions 9 to 13). */
  type PriceCells = s: seq<Cell> | |s| == 5 witness [Missing, Missing, Missing, Missing, Missing]

  /** The cells of one row that the script reads, by position: 1 instrument,
      2 underlying, 3 expiry, 4 strike, 5 option type, 9-13 prices,
      15 contracts traded, 17 open interest, 21 trade date. */
  datatype FnoRow = FnoRow(instrument: Cell, underlying: Cell, expiryRaw: Cell, strikeRaw: Cell,
                           optionType: Cell, prices: PriceCells, contractsTraded: Cell, oi: Cell,
                           tradeDateRaw: Cell)

  /** A parsed file: its column count and its rows. */
  datatype FnoFile = FnoFile(width: nat, rows: seq<FnoRow>)

  /** The library parsers the script relies on. */
  datatype Parsers = Parsers(strptime: Strptime, fromIsoFormat: string -> Option<Date>, parseFloat: FloatParser)

  /** One OPTSTK row after the column conversions. */
  datatype Contract = Contract(underlying: string, expiry: Date, strike: Option<real>, optionType: string,
                               ltp: Option<real>, oi: Option<real>, volume: Option<real>)

  datatype Batch = Batch(tradeDate: Date, contracts: seq<Contract>)

  /** `applymap(strip)`: every text cell is stripped. */
  function StripRow(r: FnoRow): FnoRow {
    var ps := r.prices;
    FnoRow(StripCell(r.instrument), StripCell(r.underlying), StripCell(r.expiryRaw), StripCell(r.strikeRaw),
           StripCell(r.optionType),
           [StripCell(ps[0]), StripCell(ps[1]), StripCell(ps[2]), StripCell(ps[3]), StripCell(ps[4])],
           StripCell(r.contractsTraded), StripCell(r.oi), StripCell(r.tradeDateRaw))
  }

  function StripRows(rows: seq<FnoRow>): seq<FnoRow> {
    seq(|rows|, i requires 0 <= i < |rows| => StripRow(rows[i]))
  }

  predicate IsStockOption(r: FnoRow) { r.instrument == Text("OPTSTK") }

  /** The rows whose instrument is OPTSTK, in file order (`df[df["instrument"] == "OPTSTK"]`). */
  function StockOptionRows(rows: seq<FnoRow>): (r: seq<FnoRow>)
    ensures |r| <= |rows|
    ensures forall x :: x in r <==> x in rows && IsStockOption(x)
  {
    if rows == [] then []
    else
      var p := StockOptionRows(rows[..|rows| - 1]);
      var x := rows[|rows| - 1];
      assert rows == rows[..|rows| - 1] + [x];
      if IsStockOption(x) then p + [x] else p
  }

  /** `parse_trade_date`: day/abbreviated month/year. */
  function ParseTradeDate(raw: Cell, strptime: Strptime): Option<Date> {
    strptime(Strip(Str(raw)), "%d/%b/%Y")
  }

  /** `parse_expiry`: exactly eight characters, read as DDMMYYYY. */
  function ParseExpiry(raw: Cell, strptime: Strptime): (r: Result<Date>)
    ensures r.Success? <==> |Strip(Str(raw))| == 8 && strptime(Strip(Str(raw)), "%d%m%Y").Some?
    ensures r.Success? ==> strptime(Strip(Str(raw)), "%d%m%Y") == Some(r.value)
  {
    var s := Strip(Str(raw));
    if |s| != 8 then Failure("Unexpected expiry format")
    else match strptime(s, "%d%m%Y")
      case None => Failure("does not match format '%d%m%Y'")
      case Some(d) => Success(d)
  }

  /** A missing expiry prints as "nan" and is rejected. */
  lemma MissingExpiryRejected(strptime: Strptime)
    ensures ParseExpiry(Missing, strptime).Failure?
  {
    assert Str(Missing) == "nan";
    assert StripLeft("nan") == "nan";
    assert StripRight("nan") == "nan";
  }

  /** The first cell of a column that is not missing (`dropna().iloc[0]`). */
  function FirstPresent(cells: seq<Cell>): (r: Option<Cell>)
    ensures r.None? <==> forall i :: 0 <= i < |cells| ==> cells[i].Missing?
    ensures r.Some? ==> r.value.Text? && exists i :: 0 <= i < |cells| && cells[i] == r.value
                                                    && forall j :: 0 <= j < i ==> cells[j].Missing?
  {
    if cells == [] then None
    else if cells[0].Text? then Some(cells[0])
    else
      var r := FirstPresent(cells[1..]);
      assert forall i :: 1 <= i < |cells| ==> cells[1..][i - 1] == cells[i];
      r
  }

  /** The trade date: the argument in ISO format if given, else the first
      trade-date cell of the OPTSTK rows. */
  function TradeDate(rows: seq<FnoRow>, arg: Option<string>, p: Parsers): (r: Result<Date>)
    ensures arg.Some? ==> (r.Success? <==> p.fromIsoFormat(arg.value).Some?)
    ensures arg.Some? && r.Success? ==> p.fromIsoFormat(arg.value) == Some(r.value)
    ensures arg.None? && (forall i :: 0 <= i < |rows| ==> rows[i].tradeDateRaw.Missing?) ==> r.Failure?
  {
    match arg
    case Some(s) =>
      (match p.fromIsoFormat(s)
       case None => Failure("Invalid isoformat string")
       case Some(d) => Success(d))
    case None =>
      var column := seq(|rows|, i requires 0 <= i < |rows| => rows[i].tradeDateRaw);
      match FirstPresent(column)
      case None => Failure("single positional indexer is out-of-bounds")
      case Some(c) =>
        match ParseTradeDate(c, p.strptime)
        case None => Failure("does not match format '%d/%b/%Y'")
        case Some(d) => Success(d)
  }

  /** A price cell `pick_ltp` accepts: present and convertible to float. */
  predicate Priced(c: Cell, parse: FloatParser) { c.Text? && parse(c.text).Some? }

  /** The value of the last accepted price column. */
  function LatestPrice(ps: seq<Cell>, parse: FloatParser): (r: Option<real>)
    ensures r.None? <==> forall i :: 0 <= i < |ps| ==> !Priced(ps[i], parse)
    ensures r.Some? ==> exists i :: 0 <= i < |ps| && Priced(ps[i], parse) && parse(ps[i].text) == r
                                    && forall j :: i < j < |ps| ==> !Priced(ps[j], parse)
  {
    if ps == [] then None
    else
      var last := ps[|ps| - 1];
      if Priced(last, parse) then parse(last.text)
      else
        var init := ps[..|ps| - 1];
        var r := LatestPrice(init, parse);
        assert forall i :: 0 <= i < |init| ==> init[i] == ps[i];
        if r.Some? then
          var i :| 0 <= i < |init| && Priced(init[i], parse) && parse(init[i].text) == r
                   && forall j :: i < j < |init| ==> !Priced(init[j], parse);
          assert forall j :: i < j < |ps| ==> !Priced(ps[j], parse);
          r
        else r
  }

  /** `pick_ltp`: scans `price_5` down to `price_1` and returns the first
      value that converts to float. */
  method PickLtp(prices: PriceCells, parse: FloatParser) returns (ltp: Option<real>)
    ensures ltp == LatestPrice(prices, parse)
  {
    var i := |prices|;
    while i > 0
      invariant 0 <= i <= |prices|
      invariant forall j :: i <= j < |prices| ==> !Priced(prices[j], parse)
    {
      i := i - 1;
      var c := prices[i];
      if c.Text? {
        var v := parse(c.text);
        if v.Some? {
          return v;
        }
      }
    }
    return None;
  }

  /** The column conversions of lines 113-140, one column after the other
      over all rows as pandas applies them: expiry, strike, option type, LTP,
      contracts traded, open interest. */
  function Convert(rows: seq<FnoRow>, p: Parsers): (r: Result<seq<Contract>>)
    ensures r.Success? ==> |r.value| == |rows|
    ensures r.Success? ==> forall i :: 0 <= i < |rows| ==>
      && |Strip(Str(rows[i].expiryRaw))| == 8
      && p.strptime(Strip(Str(rows[i].expiryRaw)), "%d%m%Y") == Some(r.value[i].expiry)
      && r.value[i].ltp == LatestPrice(rows[i].prices, p.parseFloat)
      && r.value[i].optionType == Upper(Str(rows[i].optionType))
      && FloatCell(rows[i].strikeRaw, p.parseFloat) == Success(r.value[i].strike)
      && FloatCell(rows[i].oi, p.parseFloat) == Success(r.value[i].oi)
      && r.value[i].volume == ToFloatOrNone(rows[i].contractsTraded, p.parseFloat)
      && r.value[i].underlying == Str(rows[i].underlying)
    ensures r.Failure? <==>
      exists i :: 0 <= i < |rows| && (
        || ParseExpiry(rows[i].expiryRaw, p.strptime).Failure?
        || FloatCell(rows[i].strikeRaw, p.parseFloat).Failure?
        || FloatCell(rows[i].oi, p.parseFloat).Failure?)
  {
    match MapAll((x: FnoRow) => ParseExpiry(x.expiryRaw, p.strptime), rows)
    case Failure(e) => Failure(e)
    case Success(expiries) =>
      match MapAll((x: FnoRow) => FloatCell(x.strikeRaw, p.parseFloat), rows)
      case Failure(e) => Failure(e)
      case Success(strikes) =>
        match MapAll((x: FnoRow) => FloatCell(x.oi, p.parseFloat), rows)
        case Failure(e) => Failure(e)
        case Success(ois) =>
          Success(seq(|rows|, i requires 0 <= i < |rows| =>
            Contract(Str(rows[i].underlying), expiries[i], strikes[i], Upper(Str(rows[i].optionType)),
                     LatestPrice(rows[i].prices, p.parseFloat), ois[i],
                     ToFloatOrNone(rows[i].contractsTraded, p.parseFloat))))
  }

  /** Lines 62-140: the column check, the OPTSTK filter, the trade date and
      the conversions. `None` when there is no OPTSTK row; a failure is the
      exception raised before the session is used. */
  function Prepare(file: FnoFile, arg: Option<string>, p: Parsers): (r: Result<Option<Batch>>)
    ensures file.width < 22 ==> r.Failure?
    ensures r == Success(None) <==> file.width >= 22 && StockOptionRows(StripRows(file.rows)) == []
    ensures r.Success? && r.value.Some? ==>
      && Convert(StockOptionRows(StripRows(file.rows)), p) == Success(r.value.value.contracts)
      && (arg.Some? ==> p.fromIsoFormat(arg.value) == Some(r.value.value.tradeDate))
  {
    if file.width < 22 then Failure("Expected at least 22 columns")
    else
      var rows := StockOptionRows(StripRows(file.rows));
      if rows == [] then Success(None)
      else
        match TradeDate(rows, arg, p)
        case Failure(e) => Failure(e)
        case Success(d) =>
          match Convert(rows, p)
          case Failure(e) => Failure(e)
          case Success(cs) => Success(Some(Batch(d, cs)))
  }

  // ------------------------------------------------------------------ database

  /** `symbol.strip().upper()`. */
  function NormaliseSymbol(u: string): string { Upper(Strip(u)) }

  /** The `option_chain` row a contract becomes. */
  function RowOf(d: Date, c: Contract): OptionContract {
    OptionContract(NormaliseSymbol(c.underlying), d, c.expiry, c.strike, c.optionType, c.ltp, c.oi, c.volume)
  }

  /** The stocks the loop stages as written: `auto_add_stock_if_missing`
      only sees committed rows, so an underlying that is not committed is
      staged once for every one of its contracts. */
  function AutoAdded(known: set<string>, cs: seq<Contract>): (r: seq<Stock>)
    ensures |r| <= |cs|
  {
    if cs == [] then []
    else
      var p := AutoAdded(known, cs[..|cs| - 1]);
      var sym := NormaliseSymbol(cs[|cs| - 1].underlying);
      if sym in known then p else p + [Stock(sym, None, Some("FNO"))]
  }

  /** The contracts the loop stages: those whose natural key is not
      committed, in file order. */
  function NewContracts(stored: set<ContractKey>, d: Date, cs: seq<Contract>): (r: seq<OptionContract>)
    ensures |r| <= |cs|
  {
    if cs == [] then []
    else
      var p := NewContracts(stored, d, cs[..|cs| - 1]);
      var row := RowOf(d, cs[|cs| - 1]);
      if KeyOfContract(row) in stored then p else p + [row]
  }

  /** `auto_add_stock_if_missing`. */
  method AutoAddStockIfMissing(db: Session, symbol: string) returns (norm: string)
    modifies db
    ensures norm == NormaliseSymbol(symbol)
    ensures db.newStocks == old(db.newStocks) + (if norm in old(db.StockSymbols()) then [] else [Stock(norm, None, Some("FNO"))])
    ensures db.stocks == old(db.stocks) && db.prices == old(db.prices) && db.options == old(db.options)
    ensures db.events == old(db.events)
    ensures db.newPrices == old(db.newPrices) && db.newOptions == old(db.newOptions) && db.newEvents == old(db.newEvents)
  {
    norm := Upper(Strip(symbol));
    if norm !in db.StockSymbols() {
      db.AddStock(Stock(norm, None, Some("FNO")));
    }
  }

  /** What one more contract adds to the staged stocks and contracts. */
  lemma StagingStep(known: set<string>, stored: set<ContractKey>, d: Date, cs: seq<Contract>, i: nat)
    requires i < |cs|
    ensures var sym := NormaliseSymbol(cs[i].underlying);
      AutoAdded(known, cs[..i + 1]) == AutoAdded(known, cs[..i]) + (if sym in known then [] else [Stock(sym, None, Some("FNO"))])
    ensures NewContracts(stored, d, cs[..i + 1]) == NewContracts(stored, d, cs[..i])
                                                    + (if KeyOfContract(RowOf(d, cs[i])) in stored then [] else [RowOf(d, cs[i])])
  {
    assert cs[..i + 1][..i] == cs[..i] && cs[..i + 1][i] == cs[i];
  }

  /** One iteration of the loop of lines 146-186. */
  method StageContract(db: Session, d: Date, c: Contract) returns (inserted: bool)
    modifies db
    ensures var sym := NormaliseSymbol(c.underlying);
      db.newStocks == old(db.newStocks) + (if sym in old(db.StockSymbols()) then [] else [Stock(sym, None, Some("FNO"))])
    ensures inserted <==> KeyOfContract(RowOf(d, c)) !in old(db.ContractKeys())
    ensures db.newOptions == old(db.newOptions) + (if inserted then [RowOf(d, c)] else [])
    ensures db.stocks == old(db.stocks) && db.prices == old(db.prices) && db.options == old(db.options)
    ensures db.events == old(db.events) && db.newPrices == old(db.newPrices) && db.newEvents == old(db.newEvents)
  {
    var symbol := AutoAddStockIfMissing(db, c.underlying);
    var row := OptionContract(symbol, d, c.expiry, c.strike, c.optionType, c.ltp, c.oi, c.volume);
    if KeyOfContract(row) in db.ContractKeys() {
      return false;
    }
    db.AddOption(row);
    return true;
  }

  /** The loop of lines 146-186. */
  method StageContracts(db: Session, b: Batch) returns (inserted: nat)
    modifies db
    ensures db.newStocks == old(db.newStocks) + AutoAdded(old(db.StockSymbols()), b.contracts)
    ensures db.newOptions == old(db.newOptions) + NewContracts(old(db.ContractKeys()), b.tradeDate, b.contracts)
    ensures inserted == |NewContracts(old(db.ContractKeys()), b.tradeDate, b.contracts)|
    ensures db.stocks == old(db.stocks) && db.prices == old(db.prices) && db.options == old(db.options)
    ensures db.events == old(db.events) && db.newPrices == old(db.newPrices) && db.newEvents == old(db.newEvents)
  {
    ghost var known := db.StockSymbols();
    ghost var stored := db.ContractKeys();
    var cs := b.contracts;
    inserted := 0;
    for i := 0 to |cs|
      invariant db.stocks == old(db.stocks) && db.prices == old(db.prices) && db.options == old(db.options)
      invariant db.events == old(db.events) && db.newPrices == old(db.newPrices) && db.newEvents == old(db.newEvents)
      invariant db.StockSymbols() == known && db.ContractKeys() == stored
      invariant db.newStocks == old(db.newStocks) + AutoAdded(known, cs[..i])
      invariant db.newOptions == old(db.newOptions) + NewContracts(stored, b.tradeDate, cs[..i])
      invariant inserted == |NewContracts(stored, b.tradeDate, cs[..i])|
    {
      StagingStep(known, stored, b.tradeDate, cs, i);
      var added := StageContract(db, b.tradeDate, cs[i]);
      if added {
        inserted := inserted + 1;
      }
    }
    assert cs[..|cs|] == cs;
  }

  /** What one run of the script does. */
  datatype Outcome = NothingToInsert | Inserted(count: nat) | Raised(message: string)

  /** `ingest_fno_file` on a freshly opened session. */
  method IngestFnoFile(db: Session, file: FnoFile, arg: Option<string>, p: Parsers) returns (out: Outcome)
    requires db.Valid() && db.NothingPending()
    modifies db
    ensures db.Valid() && db.NothingPending()
    ensures db.prices == old(db.prices) && db.events == old(db.events)
    ensures Prepare(file, arg, p).Failure? ==> out.Raised?
    ensures Prepare(file, arg, p) == Success(None) ==> out == NothingToInsert
    ensures out.Raised? || out == NothingToInsert ==> db.stocks == old(db.stocks) && db.options == old(db.options)
    ensures Prepare(file, arg, p).Success? && Prepare(file, arg, p).value.Some? ==>
      var b := Prepare(file, arg, p).value.value;
      var added := AutoAdded(old(db.StockSymbols()), b.contracts);
      var rows := NewContracts(old(db.ContractKeys()), b.tradeDate, b.contracts);
      && (out.Inserted? <==> SymbolsUnique(old(db.stocks) + added))
      && (out.Inserted? ==> out.count == |rows| && db.stocks == old(db.stocks) + added
                            && db.options == old(db.options) + rows)
  {
    var prepared := Prepare(file, arg, p);
    if prepared.Failure? {
      return Raised(prepared.error);
    }
    if prepared.value.None? {
      return NothingToInsert;
    }
    var b := prepared.value.value;
    ghost var added := AutoAdded(db.StockSymbols(), b.contracts);
    ghost var rows := NewContracts(db.ContractKeys(), b.tradeDate, b.contracts);
    var inserted := StageContracts(db, b);
    assert db.newStocks == added && db.newOptions == rows;
    var ok := db.Commit();
    if !ok {
      db.Rollback();
      return Raised("IntegrityError: duplicate key value violates unique constraint");
    }
    return Inserted(inserted);
  }

  // ------------------------------------------------------------------ finding

  /** Staging more contracts only appends stocks. */
  lemma {:induction false} AutoAddedPrefix(known: set<string>, cs: seq<Contract>, n: nat)
    requires n <= |cs|
    ensures var p := AutoAdded(known, cs[..n]);
      |p| <= |AutoAdded(known, cs)| && forall k :: 0 <= k < |p| ==> AutoAdded(known, cs)[k] == p[k]
  {
    if n < |cs| {
      AutoAddedPrefix(known, cs[..|cs| - 1], n);
      assert cs[..|cs| - 1][..n] == cs[..n];
    } else {
      assert cs[..n] == cs;
    }
  }

  /** Where the two staged copies of the underlying sit. */
  lemma StagedTwice(known: set<string>, cs: seq<Contract>, i: nat, j: nat)
    requires i < j < |cs|
    requires NormaliseSymbol(cs[i].underlying) == NormaliseSymbol(cs[j].underlying)
    requires NormaliseSymbol(cs[i].underlying) !in known
    ensures var a := |AutoAdded(known, cs[..i])|;
      var b := |AutoAdded(known, cs[..j])|;
      && a < b < |AutoAdded(known, cs)|
      && AutoAdded(known, cs)[a].symbol == AutoAdded(known, cs)[b].symbol == NormaliseSymbol(cs[i].underlying)
  {
    var st := Stock(NormaliseSymbol(cs[i].underlying), None, Some("FNO"));
    var all := AutoAdded(known, cs);
    var before := AutoAdded(known, cs[..i]);
    var upToJ := AutoAdded(known, cs[..j]);
    StagingStep(known, {}, 0, cs, i);
    StagingStep(known, {}, 0, cs, j);
    var upToI1 := AutoAdded(known, cs[..i + 1]);
    var upToJ1 := AutoAdded(known, cs[..j + 1]);
    assert upToI1 == before + [st] && upToI1[|before|] == st;
    assert upToJ1 == upToJ + [st] && upToJ1[|upToJ|] == st;
    AutoAddedPrefix(known, cs[..j], i + 1);
    assert cs[..j][..i + 1] == cs[..i + 1];
    assert upToJ[|before|] == st;
    AutoAddedPrefix(known, cs, j + 1);
    assert all[|upToJ|] == st;
    AutoAddedPrefix(known, cs, j);
  }

  /** As written: two contracts of one new underlying stage two stocks with
      the same symbol, so the commit breaks `stocks.symbol` uniqueness and the
      whole file is rolled back. */
  lemma RepeatedNewUnderlyingBreaksCommit(stocks: seq<Stock>, cs: seq<Contract>, i: nat, j: nat)
    requires i < j < |cs|
    requires NormaliseSymbol(cs[i].underlying) == NormaliseSymbol(cs[j].underlying)
    requires NormaliseSymbol(cs[i].underlying) !in SymbolSet(stocks)
    ensures !SymbolsUnique(stocks + AutoAdded(SymbolSet(stocks), cs))
  {
    var known := SymbolSet(stocks);
    StagedTwice(known, cs, i, j);
    var all := AutoAdded(known, cs);
    var a := |AutoAdded(known, cs[..i])|;
    var b := |AutoAdded(known, cs[..j])|;
    var x := stocks + all;
    assert x[|stocks| + a] == all[a] && x[|stocks| + b] == all[b];
  }

  /** The input that shows it: two strikes of a new underlying ABB on an
      empty database. */
  lemma TwoStrikesOfNewUnderlyingRollBack()
    ensures !SymbolsUnique([] + AutoAdded(SymbolSet([]),
                [Contract("ABB", 0, Some(4100.0), "CE", None, None, None),
                 Contract("ABB", 0, Some(4200.0), "CE", None, None, None)]))
  {
    var cs := [Contract("ABB", 0, Some(4100.0), "CE", None, None, None),
               Contract("ABB", 0, Some(4200.0), "CE", None, None, None)];
    RepeatedNewUnderlyingBreaksCommit([], cs, 0, 1);
  }

  /** Corrected: the underlyings staged during the run are remembered, as
      scripts/ingest_equity_db.py does with `existing_symbols`. */
  function AutoAddedOnce(known: set<string>, cs: seq<Contract>): (r: seq<Stock>)
    ensures forall s :: s in r ==> s.symbol !in known && s.segment == Some("FNO")
  {
    NewStocks(FirstSeen(known, Underlyings(cs)), "FNO")
  }

  /** The normalised underlying of each contract, in batch order. */
  function Underlyings(cs: seq<Contract>): (syms: seq<string>)
    ensures |syms| == |cs|
    ensures forall i :: 0 <= i < |cs| ==> syms[i] == NormaliseSymbol(cs[i].underlying)
  {
    seq(|cs|, i requires 0 <= i < |cs| => NormaliseSymbol(cs[i].underlying))
  }

  /** With the correction the staged stocks never break uniqueness, and every
      contract's symbol is a stock after the commit. */
  lemma AutoAddedOnceCommits(stocks: seq<Stock>, cs: seq<Contract>)
    requires SymbolsUnique(stocks)
    ensures SymbolsUnique(stocks + AutoAddedOnce(SymbolSet(stocks), cs))
    ensures forall c :: c in cs ==> NormaliseSymbol(c.underlying) in SymbolSet(stocks + AutoAddedOnce(SymbolSet(stocks), cs))
  {
    var syms := Underlyings(cs);
    StagingFirstSeenKeepsUnique(stocks, syms, "FNO");
    var all := stocks + AutoAddedOnce(SymbolSet(stocks), cs);
    forall c | c in cs
      ensures NormaliseSymbol(c.underlying) in SymbolSet(all)
    {
      var i :| 0 <= i < |cs| && cs[i] == c;
      var s := syms[i];
      if s in SymbolSet(stocks) {
        var t :| t in stocks && t.symbol == s;
        assert t in all;
      } else {
        var added := FirstSeen(SymbolSet(stocks), syms);
        assert s in added;
        var k :| 0 <= k < |added| && added[k] == s;
        assert all[|stocks| + k] == Stock(s, None, Some("FNO"));
      }
    }
  }

  /** Corrected `auto_add_stock_if_missing`: a symbol is also looked up in
      `seen`, the committed symbols together with those staged so far. */
  method AutoAddStockOnce(db: Session, symbol: string, seen: set<string>) returns (norm: string, seen': set<string>)
    modifies db
    ensures norm == NormaliseSymbol(symbol) && seen' == seen + {norm}
    ensures db.newStocks == old(db.newStocks) + (if norm in seen then [] else [Stock(norm, None, Some("FNO"))])
    ensures db.stocks == old(db.stocks) && db.prices == old(db.prices) && db.options == old(db.options)
    ensures db.events == old(db.events)
    ensures db.newPrices == old(db.newPrices) && db.newOptions == old(db.newOptions) && db.newEvents == old(db.newEvents)
  {
    norm := Upper(Strip(symbol));
    if norm !in seen {
      db.AddStock(Stock(norm, None, Some("FNO")));
    }
    seen' := seen + {norm};
  }

  lemma UnderlyingsPrefix(cs: seq<Contract>, n: nat)
    requires n <= |cs|
    ensures Underlyings(cs[..n]) == Underlyings(cs)[..n]
  {
  }

  /** One more contract adds its underlying to the corrected staging unless
      it is committed or already staged. */
  lemma AutoAddedOnceStep(known: set<string>, cs: seq<Contract>, i: nat)
    requires i < |cs|
    ensures var syms := Underlyings(cs);
      AutoAddedOnce(known, cs[..i + 1])
      == AutoAddedOnce(known, cs[..i])
         + (if syms[i] in known || syms[i] in syms[..i] then [] else [Stock(syms[i], None, Some("FNO"))])
  {
    var syms := Underlyings(cs);
    UnderlyingsPrefix(cs, i);
    UnderlyingsPrefix(cs, i + 1);
    assert syms[..i + 1][..i] == syms[..i];
    var p := FirstSeen(known, syms[..i]);
    var q := if syms[i] in known || syms[i] in p then p else p + [syms[i]];
    assert FirstSeen(known, syms[..i + 1]) == q;
    if q != p {
      assert NewStocks(p + [syms[i]], "FNO") == NewStocks(p, "FNO") + [Stock(syms[i], None, Some("FNO"))];
    }
  }

  /** The stock half of the corrected loop's invariant after `i` contracts:
      `seen` holds the committed and the staged symbols, and the staged
      stocks are the first-seen underlyings. */
  ghost predicate StagedOnce(db: Session, seen: set<string>, known: set<string>, cs: seq<Contract>, i: nat)
    reads db
    requires i <= |cs|
  {
    && (forall s :: s in seen <==> s in known || s in Underlyings(cs)[..i])
    && db.newStocks == AutoAddedOnce(known, cs[..i])
  }

  /** The contract half: the contracts whose key is not committed are staged. */
  ghost predicate StagedContracts(db: Session, stored: set<ContractKey>, d: Date, cs: seq<Contract>, i: nat)
    reads db
    requires i <= |cs|
  {
    db.newOptions == NewContracts(stored, d, cs[..i])
  }

  /** The stock half of one iteration of the corrected loop. */
  method StageUnderlyingOnce(db: Session, cs: seq<Contract>, i: nat, seen: set<string>, ghost known: set<string>)
    returns (symbol: string, seen': set<string>)
    requires i < |cs| && StagedOnce(db, seen, known, cs, i)
    modifies db
    ensures symbol == NormaliseSymbol(cs[i].underlying)
    ensures StagedOnce(db, seen', known, cs, i + 1)
    ensures db.stocks == old(db.stocks) && db.prices == old(db.prices) && db.options == old(db.options)
    ensures db.events == old(db.events) && db.newPrices == old(db.newPrices)
    ensures db.newOptions == old(db.newOptions) && db.newEvents == old(db.newEvents)
  {
    ghost var syms := Underlyings(cs);
    assert syms[..i + 1] == syms[..i] + [syms[i]];
    AutoAddedOnceStep(known, cs, i);
    symbol, seen' := AutoAddStockOnce(db, cs[i].underlying, seen);
  }

  /** One iteration of the corrected loop. */
  method StageContractOnce(db: Session, d: Date, cs: seq<Contract>, i: nat, seen: set<string>,
                           ghost known: set<string>, ghost stored: set<ContractKey>)
    returns (seen': set<string>, inserted: bool)
    requires i < |cs| && db.ContractKeys() == stored
    requires StagedOnce(db, seen, known, cs, i) && StagedContracts(db, stored, d, cs, i)
    modifies db
    ensures StagedOnce(db, seen', known, cs, i + 1) && StagedContracts(db, stored, d, cs, i + 1)
    ensures |db.newOptions| == |old(db.newOptions)| + (if inserted then 1 else 0)
    ensures db.stocks == old(db.stocks) && db.prices == old(db.prices) && db.options == old(db.options)
    ensures db.events == old(db.events) && db.newPrices == old(db.newPrices) && db.newEvents == old(db.newEvents)
  {
    StagingStep(known, stored, d, cs, i);
    var c := cs[i];
    var symbol;
    symbol, seen' := StageUnderlyingOnce(db, cs, i, seen, known);
    var row := OptionContract(symbol, d, c.expiry, c.strike, c.optionType, c.ltp, c.oi, c.volume);
    if KeyOfContract(row) in db.ContractKeys() {
      return seen', false;
    }
    db.AddOption(row);
    return seen', true;
  }

  /** The corrected loop of lines 146-186: each new underlying is staged once. */
  method StageContractsOnce(db: Session, b: Batch) returns (inserted: nat)
    requires db.NothingPending()
    modifies db
    ensures db.newStocks == AutoAddedOnce(SymbolSet(old(db.stocks)), b.contracts)
    ensures db.newOptions == NewContracts(ContractKeySet(old(db.options)), b.tradeDate, b.contracts)
    ensures inserted == |db.newOptions|
    ensures db.stocks == old(db.stocks) && db.prices == old(db.prices) && db.options == old(db.options)
    ensures db.events == old(db.events) && db.newPrices == [] && db.newEvents == []
  {
    ghost var known := SymbolSet(db.stocks);
    ghost var stored := ContractKeySet(db.options);
    var cs := b.contracts;
    var seen := SymbolSet(db.stocks);
    inserted := 0;
    assert cs[..0] == [] && Underlyings(cs)[..0] == [];
    for i := 0 to |cs|
      invariant db.stocks == old(db.stocks) && db.prices == old(db.prices) && db.options == old(db.options)
      invariant db.events == old(db.events) && db.newPrices == [] && db.newEvents == []
      invariant StagedOnce(db, seen, known, cs, i) && StagedContracts(db, stored, b.tradeDate, cs, i)
      invariant inserted == |db.newOptions|
    {
      var added;
      seen, added := StageContractOnce(db, b.tradeDate, cs, i, seen, known, stored);
      if added {
        inserted := inserted + 1;
      }
    }
    assert cs[..|cs|] == cs;
  }

  /** The corrected run: whenever there is something to insert, the commit
      succeeds and every underlying of the file is a stock afterwards. */
  method IngestFnoFileCorrected(db: Session, file: FnoFile, arg: Option<string>, p: Parsers) returns (out: Outcome)
    requires db.Valid() && db.NothingPending()
    modifies db
    ensures db.Valid() && db.NothingPending()
    ensures db.prices == old(db.prices) && db.events == old(db.events)
    ensures Prepare(file, arg, p).Failure? ==> out.Raised?
    ensures Prepare(file, arg, p) == Success(None) ==> out == NothingToInsert
    ensures out.Raised? || out == NothingToInsert ==> db.stocks == old(db.stocks) && db.options == old(db.options)
    ensures Prepare(file, arg, p).Success? && Prepare(file, arg, p).value.Some? ==>
      var b := Prepare(file, arg, p).value.value;
      var rows := NewContracts(old(db.ContractKeys()), b.tradeDate, b.contracts);
      && out == Inserted(|rows|)
      && db.stocks == old(db.stocks) + AutoAddedOnce(old(db.StockSymbols()), b.contracts)
      && db.options == old(db.options) + rows
      && forall c :: c in b.contracts ==> NormaliseSymbol(c.underlying) in db.StockSymbols()
  {
    var prepared := Prepare(file, arg, p);
    if prepared.Failure? {
      return Raised(prepared.error);
    }
    if prepared.value.None? {
      return NothingToInsert;
    }
    var b := prepared.value.value;
    ghost var added := AutoAddedOnce(db.StockSymbols(), b.contracts);
    ghost var rows := NewContracts(db.ContractKeys(), b.tradeDate, b.contracts);
    AutoAddedOnceCommits(db.stocks, b.contracts);
    var inserted := StageContractsOnce(db, b);
    assert db.newStocks == added && db.newOptions == rows && db.newPrices == [];
    var ok := db.Commit();
    assert ok;
    return Inserted(inserted);
  }

  // ------------------------------------------------------------------ idempotence

  lemma {:induction false} NewContractsComplete(stored: set<ContractKey>, d: Date, cs: seq<Contract>, i: nat)
    requires i < |cs| && KeyOfContract(RowOf(d, cs[i])) !in stored
    ensures RowOf(d, cs[i]) in NewContracts(stored, d, cs)
  {
    if i < |cs| - 1 {
      assert cs[..|cs| - 1][i] == cs[i];
      NewContractsComplete(stored, d, cs[..|cs| - 1], i);
    }
  }

  lemma {:induction false} NoNewContracts(stored: set<ContractKey>, d: Date, cs: seq<Contract>)
    requires forall i :: 0 <= i < |cs| ==> KeyOfContract(RowOf(d, cs[i])) in stored
    ensures NewContracts(stored, d, cs) == []
  {
    if cs != [] {
      NoNewContracts(stored, d, cs[..|cs| - 1]);
    }
  }

  /** Loading the same batch again after a successful commit stages no
      contract. */
  lemma ReingestStagesNoContract(options: seq<OptionContract>, b: Batch)
    ensures NewContracts(ContractKeySet(options + NewContracts(ContractKeySet(options), b.tradeDate, b.contracts)),
                         b.tradeDate, b.contracts) == []
  {
    var staged := NewContracts(ContractKeySet(options), b.tradeDate, b.contracts);
    var after := options + staged;
    forall i | 0 <= i < |b.contracts|
      ensures KeyOfContract(RowOf(b.tradeDate, b.contracts[i])) in ContractKeySet(after)
    {
      var row := RowOf(b.tradeDate, b.contracts[i]);
      if KeyOfContract(row) in ContractKeySet(options) {
        var x :| x in options && KeyOfContract(x) == KeyOfContract(row);
        assert x in after;
      } else {
        NewContractsComplete(ContractKeySet(options), b.tradeDate, b.contracts, i);
        assert row in after;
      }
    }
    NoNewContracts(ContractKeySet(after), b.tradeDate, b.contracts);
  }
}
