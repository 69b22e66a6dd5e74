/** scripts/ingest_equity_db.py: loads one NSE equity bhavcopy (a CSV file
    with a header) into `daily_prices` for a given trade date, adding a
    `stocks` row the first time a symbol is seen. */
module EquityIngest {
  import opened Wrappers
  import opened Dates
  import opened Text
  import opened Cells
  import opened Store

  /** The file as pandas reads it: header names and rows of cells. */
  datatype Bhavcopy = Bhavcopy(header: seq<string>, rows: seq<seq<Cell>>)

  /** The library parsers the script relies on. */
  datatype Parsers = Parsers(fromIsoFormat: string -> Option<Date>, parseFloat: FloatParser)

  const RequiredColumns: seq<string> := ["SYMBOL", "OPEN_PRICE", "HIGH_PRICE", "LOW_PRICE", "CLOSE_PRICE", "TTL_TRD_QNTY"]

  /** `str.strip().str.upper().str.replace(" ", "_")` on a header name. */
  function NormaliseColumn(c: string): (r: string)
    ensures |r| == |Strip(c)|
    ensures forall i :: 0 <= i < |r| ==> r[i] != ' ' && !IsLowerLetter(r[i])
  {
    ReplaceChar(Upper(Strip(c)), ' ', '_')
  }

  function Columns(file: Bhavcopy): (cols: seq<string>)
    ensures |cols| == |file.header|
  {
    seq(|file.header|, i requires 0 <= i < |file.header| => NormaliseColumn(file.header[i]))
  }

  /** The required names that are not columns, in the required order. */
  function Absent(required: seq<string>, cols: seq<string>): (m: seq<string>)
    ensures |m| <= |required|
    ensures forall c :: c in m <==> c in required && c !in cols
  {
    if required == [] then []
    else
      var p := Absent(required[..|required| - 1], cols);
      var c := required[|required| - 1];
      assert required == required[..|required| - 1] + [c];
      if c in cols then p else p + [c]
  }

  /** The position of the first column with this name; `|cols|` when there
      is none. */
  function Column(cols: seq<string>, name: string): (k: nat)
    ensures k <= |cols|
    ensures k < |cols| ==> cols[k] == name
    ensures forall j :: 0 <= j < k ==> cols[j] != name
    ensures k == |cols| <==> name !in cols
  {
    if cols == [] then 0
    else if cols[0] == name then 0
    else
      var k := Column(cols[1..], name);
      assert forall j :: 1 <= j < |cols| ==> cols[1..][j - 1] == cols[j];
      1 + k
  }

  /** A cell of a row; pandas fills a short row with NaN. */
  function CellAt(row: seq<Cell>, k: nat): Cell {
    if k < |row| then row[k] else Missing
  }

  /** `astype(str).str.strip().str.upper()`. */
  function CellText(c: Cell): string { Upper(Strip(Str(c))) }

  /** The cells of one row that the loop reads. */
  datatype EquityRow = EquityRow(symbol: string, open: Cell, high: Cell, low: Cell, close: Cell, volume: Cell)

  function RowOf(cols: seq<string>, row: seq<Cell>): EquityRow {
    EquityRow(CellText(CellAt(row, Column(cols, "SYMBOL"))),
              CellAt(row, Column(cols, "OPEN_PRICE")), CellAt(row, Column(cols, "HIGH_PRICE")),
              CellAt(row, Column(cols, "LOW_PRICE")), CellAt(row, Column(cols, "CLOSE_PRICE")),
              CellAt(row, Column(cols, "TTL_TRD_QNTY")))
  }

  /** With a SERIES column only EQ rows are kept. */
  predicate Kept(cols: seq<string>, row: seq<Cell>) {
    "SERIES" !in cols || CellText(CellAt(row, Column(cols, "SERIES"))) == "EQ"
  }

  function KeptRows(cols: seq<string>, rows: seq<seq<Cell>>): (r: seq<EquityRow>)
    ensures |r| <= |rows|
    ensures "SERIES" !in cols ==> |r| == |rows|
  {
    if rows == [] then []
    else
      var p := KeptRows(cols, rows[..|rows| - 1]);
      var row := rows[|rows| - 1];
      if Kept(cols, row) then p + [RowOf(cols, row)] else p
  }

  /** Every kept row comes from a row of the file that passes the SERIES filter. */
  lemma {:induction false} KeptRowsSound(cols: seq<string>, rows: seq<seq<Cell>>)
    ensures forall e :: e in KeptRows(cols, rows) ==>
      exists i :: 0 <= i < |rows| && Kept(cols, rows[i]) && e == RowOf(cols, rows[i])
  {
    if rows != [] {
      var init := rows[..|rows| - 1];
      KeptRowsSound(cols, init);
      forall e | e in KeptRows(cols, rows)
        ensures exists i :: 0 <= i < |rows| && Kept(cols, rows[i]) && e == RowOf(cols, rows[i])
      {
        if e in KeptRows(cols, init) {
          var i :| 0 <= i < |init| && Kept(cols, init[i]) && e == RowOf(cols, init[i]);
          assert rows[i] == init[i];
        } else {
          var last := rows[|rows| - 1];
          assert Kept(cols, last) && e == RowOf(cols, last);
        }
      }
    }
  }

  /** Every row of the file that passes the SERIES filter is kept. */
  lemma {:induction false} KeptRowsComplete(cols: seq<string>, rows: seq<seq<Cell>>, i: nat)
    requires i < |rows| && Kept(cols, rows[i])
    ensures RowOf(cols, rows[i]) in KeptRows(cols, rows)
  {
    if i < |rows| - 1 {
      var init := rows[..|rows| - 1];
      assert init[i] == rows[i];
      KeptRowsComplete(cols, init, i);
    }
  }

  /** Lines 20-41: the header check and the row selection. */
  function Table(file: Bhavcopy): (r: Result<seq<EquityRow>>)
    ensures r.Failure? <==> Absent(RequiredColumns, Columns(file)) != []
    ensures r.Success? ==> |r.value| <= |file.rows|
  {
    var cols := Columns(file);
    if Absent(RequiredColumns, cols) != [] then Failure("Missing columns after normalization")
    else Success(KeptRows(cols, file.rows))
  }

  /** The five `float(...)` conversions of a row, in source order. */
  function PriceOf(r: EquityRow, d: Date, parse: FloatParser): (p: Result<DailyPrice>)
    ensures p.Success? ==> p.value.symbol == r.symbol && p.value.date == d
  {
    match FloatCell(r.open, parse)
    case Failure(e) => Failure(e)
    case Success(o) =>
      match FloatCell(r.high, parse)
      case Failure(e) => Failure(e)
      case Success(h) =>
        match FloatCell(r.low, parse)
        case Failure(e) => Failure(e)
        case Success(l) =>
          match FloatCell(r.close, parse)
          case Failure(e) => Failure(e)
          case Success(c) =>
            match FloatCell(r.volume, parse)
            case Failure(e) => Failure(e)
            case Success(v) => Success(DailyPrice(r.symbol, d, o, h, l, c, v))
  }

  /** A row converts exactly when each of its five cells does, and the
      price carries the five values in source order. */
  lemma PriceOfConverts(r: EquityRow, d: Date, parse: FloatParser)
    ensures PriceOf(r, d, parse).Success? <==>
      && FloatCell(r.open, parse).Success? && FloatCell(r.high, parse).Success?
      && FloatCell(r.low, parse).Success? && FloatCell(r.close, parse).Success?
      && FloatCell(r.volume, parse).Success?
    ensures PriceOf(r, d, parse).Success? ==>
      PriceOf(r, d, parse).value == DailyPrice(r.symbol, d, FloatCell(r.open, parse).value, FloatCell(r.high, parse).value,
                                               FloatCell(r.low, parse).value, FloatCell(r.close, parse).value,
                                               FloatCell(r.volume, parse).value)
  {
  }

  /** Every row converted, or the first failure. */
  function PricesOf(rows: seq<EquityRow>, d: Date, parse: FloatParser): (r: Result<seq<DailyPrice>>)
    ensures r.Success? ==> |r.value| == |rows|
  {
    if rows == [] then Success([])
    else
      var init := rows[..|rows| - 1];
      match PricesOf(init, d, parse)
      case Failure(e) => Failure(e)
      case Success(ps) =>
        match PriceOf(rows[|rows| - 1], d, parse)
        case Failure(e) => Failure(e)
        case Success(p) => Success(ps + [p])
  }

  /** The i-th converted price is the conversion of the i-th row. */
  lemma {:induction false} PricesOfAt(rows: seq<EquityRow>, d: Date, parse: FloatParser, i: nat)
    requires i < |rows| && PricesOf(rows, d, parse).Success?
    ensures PriceOf(rows[i], d, parse).Success?
    ensures PricesOf(rows, d, parse).value[i] == PriceOf(rows[i], d, parse).value
  {
    if i < |rows| - 1 {
      assert rows[..|rows| - 1][i] == rows[i];
      PricesOfAt(rows[..|rows| - 1], d, parse, i);
    }
  }

  /** A row that does not convert makes the whole conversion fail. */
  lemma {:induction false} PricesOfFails(rows: seq<EquityRow>, d: Date, parse: FloatParser, i: nat)
    requires i < |rows| && PriceOf(rows[i], d, parse).Failure?
    ensures PricesOf(rows, d, parse).Failure?
  {
    if i < |rows| - 1 {
      assert rows[..|rows| - 1][i] == rows[i];
      PricesOfFails(rows[..|rows| - 1], d, parse, i);
    }
  }

  /** The price rows whose (symbol, date) is not committed, in file order. */
  function NewPrices(stored: set<(string, Date)>, ps: seq<DailyPrice>): (r: seq<DailyPrice>)
    ensures |r| <= |ps|
  {
    if ps == [] then []
    else
      var p := NewPrices(stored, ps[..|ps| - 1]);
      var x := ps[|ps| - 1];
      if (x.symbol, x.date) in stored then p else p + [x]
  }

  function Symbols(rows: seq<EquityRow>): (syms: seq<string>)
    ensures |syms| == |rows| && forall i :: 0 <= i < |rows| ==> syms[i] == rows[i].symbol
  {
    seq(|rows|, i requires 0 <= i < |rows| => rows[i].symbol)
  }

  /** The rows one run stages. */
  datatype Staging = Staging(stocks: seq<Stock>, prices: seq<DailyPrice>)

  /** What the script stages for the committed symbols `known` and committed
      price keys `stored`, or the exception it raises before committing. */
  function Plan(file: Bhavcopy, tradeDate: string, known: set<string>, stored: set<(string, Date)>,
                p: Parsers): (r: Result<Staging>)
    ensures p.fromIsoFormat(tradeDate).None? ==> r.Failure?
    ensures Table(file).Failure? ==> r.Failure?
    ensures r.Success? ==> forall s :: s in r.value.stocks ==> s.symbol !in known && s.segment == Some("EQ")
  {
    match p.fromIsoFormat(tradeDate)
    case None => Failure("Invalid isoformat string")
    case Some(d) =>
      match Table(file)
      case Failure(e) => Failure(e)
      case Success(rows) =>
        match PricesOf(rows, d, p.parseFloat)
        case Failure(e) => Failure(e)
        case Success(ps) => Success(Staging(NewStocks(FirstSeen(known, Symbols(rows)), "EQ"), NewPrices(stored, ps)))
  }

  // ------------------------------------------------------------------ database

  lemma StageStep(known: set<string>, stored: set<(string, Date)>, rows: seq<EquityRow>, d: Date,
                  parse: FloatParser, i: nat)
    requires i < |rows|
    ensures var s := rows[i].symbol;
      var p := FirstSeen(known, Symbols(rows)[..i]);
      FirstSeen(known, Symbols(rows)[..i + 1]) == p + (if s in known || s in p then [] else [s])
    ensures PricesOf(rows[..i + 1], d, parse).Success? <==>
            PricesOf(rows[..i], d, parse).Success? && PriceOf(rows[i], d, parse).Success?
    ensures PricesOf(rows[..i + 1], d, parse).Success? ==>
      var x := PriceOf(rows[i], d, parse).value;
      NewPrices(stored, PricesOf(rows[..i + 1], d, parse).value)
        == NewPrices(stored, PricesOf(rows[..i], d, parse).value) + (if (x.symbol, x.date) in stored then [] else [x])
  {
    assert rows[..i + 1][..i] == rows[..i] && rows[..i + 1][i] == rows[i];
    assert Symbols(rows)[..i + 1][..i] == Symbols(rows)[..i];
  }

  /** The stock half of the loop invariant of lines 54-93 after the first
      `i` rows: `existing` holds the stored symbols and those of the rows
      seen, and one stock is staged per new symbol. */
  ghost predicate StagedStocks(db: Session, existing: set<string>, known: set<string>, rows: seq<EquityRow>, i: nat)
    reads db
    requires i <= |rows|
  {
    && (forall s :: s in existing <==> s in known || s in Symbols(rows)[..i])
    && db.newStocks == NewStocks(FirstSeen(known, Symbols(rows)[..i]), "EQ")
  }

  /** The price half: the rows seen all converted and the new ones are staged. */
  ghost predicate StagedPrices(db: Session, stored: set<(string, Date)>, rows: seq<EquityRow>, d: Date,
                               parse: FloatParser, i: nat)
    reads db
    requires i <= |rows|
  {
    && PricesOf(rows[..i], d, parse).Success?
    && db.newPrices == NewPrices(stored, PricesOf(rows[..i], d, parse).value)
  }

  /** Lines 58-66: a symbol seen for the first time is staged as a stock. */
  method StageStock(db: Session, existing: set<string>, rows: seq<EquityRow>, i: nat, ghost known: set<string>)
    returns (existing': set<string>, stockAdded: bool)
    requires i < |rows| && StagedStocks(db, existing, known, rows, i)
    modifies db
    ensures StagedStocks(db, existing', known, rows, i + 1)
    ensures |db.newStocks| == |old(db.newStocks)| + (if stockAdded then 1 else 0)
    ensures db.stocks == old(db.stocks) && db.prices == old(db.prices) && db.options == old(db.options)
    ensures db.events == old(db.events) && db.newPrices == old(db.newPrices)
    ensures db.newOptions == old(db.newOptions) && db.newEvents == old(db.newEvents)
  {
    var symbol := rows[i].symbol;
    ghost var syms := Symbols(rows);
    assert syms[..i + 1] == syms[..i] + [symbol];
    existing' := existing;
    stockAdded := symbol !in existing;
    if stockAdded {
      db.AddStock(Stock(symbol, None, Some("EQ")));
      existing' := existing + {symbol};
    }
  }

  /** Lines 68-93: the row is converted (or raises) and staged unless its
      (symbol, date) is stored. */
  method StagePrice(db: Session, rows: seq<EquityRow>, i: nat, d: Date, parse: FloatParser,
                    ghost stored: set<(string, Date)>)
    returns (priced: bool, priceAdded: bool)
    requires i < |rows| && StagedPrices(db, stored, rows, d, parse, i)
    requires PriceKeySet(db.prices) == stored
    modifies db
    ensures priced <==> PriceOf(rows[i], d, parse).Success?
    ensures priced ==> StagedPrices(db, stored, rows, d, parse, i + 1)
    ensures |db.newPrices| == |old(db.newPrices)| + (if priceAdded then 1 else 0)
    ensures db.stocks == old(db.stocks) && db.prices == old(db.prices) && db.options == old(db.options)
    ensures db.events == old(db.events) && db.newStocks == old(db.newStocks)
    ensures db.newOptions == old(db.newOptions) && db.newEvents == old(db.newEvents)
  {
    assert rows[..i + 1][..i] == rows[..i] && rows[..i + 1][i] == rows[i];
    var r := rows[i];
    var price := PriceOf(r, d, parse);
    priced := price.Success?;
    priceAdded := false;
    if !priced || (r.symbol, d) in PriceKeySet(db.prices) {
      return;
    }
    db.AddPrice(price.value);
    priceAdded := true;
  }

  /** The loop of lines 54-93. `false` when a `float(...)` raises; the rows
      staged so far are then dropped by the caller's rollback. */
  method StageRows(db: Session, rows: seq<EquityRow>, d: Date, parse: FloatParser)
    returns (ok: bool, stocksAdded: nat, pricesAdded: nat)
    requires db.NothingPending()
    modifies db
    ensures ok <==> PricesOf(rows, d, parse).Success?
    ensures ok ==>
      && db.newStocks == NewStocks(FirstSeen(SymbolSet(old(db.stocks)), Symbols(rows)), "EQ")
      && db.newPrices == NewPrices(PriceKeySet(old(db.prices)), PricesOf(rows, d, parse).value)
      && stocksAdded == |db.newStocks| && pricesAdded == |db.newPrices|
    ensures db.stocks == old(db.stocks) && db.prices == old(db.prices) && db.options == old(db.options)
    ensures db.events == old(db.events) && db.newOptions == [] && db.newEvents == []
  {
    ghost var known := SymbolSet(db.stocks);
    ghost var stored := PriceKeySet(db.prices);
    var existing := SymbolSet(db.stocks);
    stocksAdded, pricesAdded := 0, 0;
    assert rows[..0] == [] && Symbols(rows)[..0] == [];
    for i := 0 to |rows|
      invariant db.stocks == old(db.stocks) && db.prices == old(db.prices) && db.options == old(db.options)
      invariant db.events == old(db.events) && db.newOptions == [] && db.newEvents == []
      invariant StagedStocks(db, existing, known, rows, i) && StagedPrices(db, stored, rows, d, parse, i)
      invariant stocksAdded == |db.newStocks| && pricesAdded == |db.newPrices|
    {
      var stockAdded, priced, priceAdded;
      existing, stockAdded := StageStock(db, existing, rows, i, known);
      if stockAdded {
        stocksAdded := stocksAdded + 1;
      }
      priced, priceAdded := StagePrice(db, rows, i, d, parse, stored);
      if !priced {
        PricesOfFails(rows, d, parse, i);
        ok := false;
        return;
      }
      if priceAdded {
        pricesAdded := pricesAdded + 1;
      }
    }
    assert rows[..|rows|] == rows && Symbols(rows)[..|rows|] == Symbols(rows);
    ok := true;
  }

  /** What one run of the script does. */
  datatype Outcome = Ingested(stocks: nat, prices: nat) | Raised(message: string)

  /** `ingest_bhavcopy` on a freshly opened session. */
  method IngestBhavcopy(db: Session, file: Bhavcopy, tradeDate: string, p: Parsers) returns (out: Outcome)
    requires db.Valid() && db.NothingPending()
    modifies db
    ensures db.Valid() && db.NothingPending()
    ensures db.options == old(db.options) && db.events == old(db.events)
    ensures out.Raised? ==> db.stocks == old(db.stocks) && db.prices == old(db.prices)
    ensures var plan := Plan(file, tradeDate, old(db.StockSymbols()), old(db.PriceKeys()), p);
      && (out.Ingested? <==> plan.Success? && PriceKeysUnique(old(db.prices) + plan.value.prices))
      && (out.Ingested? ==> db.stocks == old(db.stocks) + plan.value.stocks && db.prices == old(db.prices) + plan.value.prices
                            && out.stocks == |plan.value.stocks| && out.prices == |plan.value.prices|)
  {
    ghost var plan := Plan(file, tradeDate, db.StockSymbols(), db.PriceKeys(), p);
    var d := p.fromIsoFormat(tradeDate);
    if d.None? {
      return Raised("Invalid isoformat string");
    }
    var table := Table(file);
    if table.Failure? {
      return Raised(table.error);
    }
    var ok, stocksAdded, pricesAdded := StageRows(db, table.value, d.value, p.parseFloat);
    if !ok {
      db.Rollback();
      return Raised("could not convert string to float");
    }
    StagingFirstSeenKeepsUnique(db.stocks, Symbols(table.value), "EQ");
    assert db.newStocks == plan.value.stocks && db.newPrices == plan.value.prices;
    var committed := db.Commit();
    if !committed {
      db.Rollback();
      return Raised("IntegrityError: duplicate key value violates unique constraint");
    }
    return Ingested(stocksAdded, pricesAdded);
  }

  // ------------------------------------------------------------------ properties

  /** A symbol is staged as a stock exactly when it is in the file and not
      yet stored, and only once. */
  lemma StagedStocksAreNewAndDistinct(file: Bhavcopy, tradeDate: string, stocks: seq<Stock>,
                                      stored: set<(string, Date)>, p: Parsers)
    requires Plan(file, tradeDate, SymbolSet(stocks), stored, p).Success?
    ensures var plan := Plan(file, tradeDate, SymbolSet(stocks), stored, p).value;
      var rows := Table(file).value;
      && (forall s :: s in SymbolSet(plan.stocks) <==> s in Symbols(rows) && s !in SymbolSet(stocks))
      && (SymbolsUnique(stocks) ==> SymbolsUnique(stocks + plan.stocks))
  {
    var rows := Table(file).value;
    var added := FirstSeen(SymbolSet(stocks), Symbols(rows));
    var staged := NewStocks(added, "EQ");
    forall s
      ensures s in SymbolSet(staged) <==> s in added
    {
      if s in added {
        var k :| 0 <= k < |added| && added[k] == s;
        assert staged[k].symbol == s;
      }
    }
    if SymbolsUnique(stocks) {
      StagingFirstSeenKeepsUnique(stocks, Symbols(rows), "EQ");
    }
  }

  lemma {:induction false} NewPricesComplete(stored: set<(string, Date)>, ps: seq<DailyPrice>, i: nat)
    requires i < |ps| && (ps[i].symbol, ps[i].date) !in stored
    ensures ps[i] in NewPrices(stored, ps)
  {
    if i < |ps| - 1 {
      assert ps[..|ps| - 1][i] == ps[i];
      NewPricesComplete(stored, ps[..|ps| - 1], i);
    }
  }

  lemma {:induction false} NoNewPrices(stored: set<(string, Date)>, ps: seq<DailyPrice>)
    requires forall i :: 0 <= i < |ps| ==> (ps[i].symbol, ps[i].date) in stored
    ensures NewPrices(stored, ps) == []
  {
    if ps != [] {
      NoNewPrices(stored, ps[..|ps| - 1]);
    }
  }

  /** Two unstored prices at positions i < j are both staged, in that order. */
  lemma {:induction false} NewPricesKeepsBoth(stored: set<(string, Date)>, ps: seq<DailyPrice>, i: nat, j: nat)
    requires i < j < |ps|
    requires (ps[i].symbol, ps[i].date) !in stored && (ps[j].symbol, ps[j].date) !in stored
    ensures exists a, b :: 0 <= a < b < |NewPrices(stored, ps)| && NewPrices(stored, ps)[a] == ps[i]
                           && NewPrices(stored, ps)[b] == ps[j]
  {
    var init := ps[..|ps| - 1];
    assert init[i] == ps[i];
    if j < |ps| - 1 {
      assert init[j] == ps[j];
      NewPricesKeepsBoth(stored, init, i, j);
      var a, b :| 0 <= a < b < |NewPrices(stored, init)| && NewPrices(stored, init)[a] == ps[i]
                  && NewPrices(stored, init)[b] == ps[j];
      assert NewPrices(stored, ps)[a] == ps[i] && NewPrices(stored, ps)[b] == ps[j];
    } else {
      NewPricesComplete(stored, init, i);
      var p := NewPrices(stored, init);
      var a :| 0 <= a < |p| && p[a] == ps[i];
      assert NewPrices(stored, ps) == p + [ps[j]];
      assert NewPrices(stored, ps)[a] == ps[i] && NewPrices(stored, ps)[|p|] == ps[j];
    }
  }

  /** A symbol that appears on two kept rows and has no price for the trade
      date is staged twice (the query before each insert sees only committed
      rows), so the commit breaks the (symbol, date) constraint and the whole
      file is rolled back. */
  lemma RepeatedSymbolBreaksCommit(file: Bhavcopy, tradeDate: string, known: set<string>,
                                   prices: seq<DailyPrice>, p: Parsers, i: nat, j: nat)
    requires Plan(file, tradeDate, known, PriceKeySet(prices), p).Success?
    requires i < j < |Table(file).value|
    requires Table(file).value[i].symbol == Table(file).value[j].symbol
    requires (Table(file).value[i].symbol, p.fromIsoFormat(tradeDate).value) !in PriceKeySet(prices)
    ensures !PriceKeysUnique(prices + Plan(file, tradeDate, known, PriceKeySet(prices), p).value.prices)
  {
    PlanValue(file, tradeDate, known, PriceKeySet(prices), p);
    var rows := Table(file).value;
    var d := p.fromIsoFormat(tradeDate).value;
    var ps := PricesOf(rows, d, p.parseFloat).value;
    PricesOfAt(rows, d, p.parseFloat, i);
    PricesOfAt(rows, d, p.parseFloat, j);
    NewPricesKeepsBoth(PriceKeySet(prices), ps, i, j);
    var staged := NewPrices(PriceKeySet(prices), ps);
    var a, b :| 0 <= a < b < |staged| && staged[a] == ps[i] && staged[b] == ps[j];
    var all := prices + staged;
    assert all[|prices| + a] == ps[i] && all[|prices| + b] == ps[j];
  }

  /** What a successful plan stages, spelled out. */
  lemma PlanValue(file: Bhavcopy, tradeDate: string, known: set<string>, stored: set<(string, Date)>, p: Parsers)
    requires Plan(file, tradeDate, known, stored, p).Success?
    ensures p.fromIsoFormat(tradeDate).Some? && Table(file).Success?
    ensures PricesOf(Table(file).value, p.fromIsoFormat(tradeDate).value, p.parseFloat).Success?
    ensures Plan(file, tradeDate, known, stored, p).value
      == Staging(NewStocks(FirstSeen(known, Symbols(Table(file).value)), "EQ"),
                 NewPrices(stored, PricesOf(Table(file).value, p.fromIsoFormat(tradeDate).value, p.parseFloat).value))
  {
  }

  /** After the staged stocks are committed every symbol of the file is stored. */
  lemma StocksCovered(stocks: seq<Stock>, rows: seq<EquityRow>)
    ensures var staged := NewStocks(FirstSeen(SymbolSet(stocks), Symbols(rows)), "EQ");
      forall s :: s in Symbols(rows) ==> s in SymbolSet(stocks + staged)
  {
    var added := FirstSeen(SymbolSet(stocks), Symbols(rows));
    var staged := NewStocks(added, "EQ");
    forall s | s in Symbols(rows)
      ensures s in SymbolSet(stocks + staged)
    {
      if s in SymbolSet(stocks) {
        var t :| t in stocks && t.symbol == s;
        assert t in stocks + staged;
      } else {
        var k :| 0 <= k < |added| && added[k] == s;
        assert staged[k] in stocks + staged;
      }
    }
  }

  /** After the staged prices are committed every price of the file is stored. */
  lemma PricesCovered(prices: seq<DailyPrice>, ps: seq<DailyPrice>)
    ensures NewPrices(PriceKeySet(prices + NewPrices(PriceKeySet(prices), ps)), ps) == []
  {
    var staged := NewPrices(PriceKeySet(prices), ps);
    var after := PriceKeySet(prices + staged);
    forall i | 0 <= i < |ps|
      ensures (ps[i].symbol, ps[i].date) in after
    {
      if (ps[i].symbol, ps[i].date) in PriceKeySet(prices) {
        var x :| x in prices && (x.symbol, x.date) == (ps[i].symbol, ps[i].date);
        assert x in prices + staged;
      } else {
        NewPricesComplete(PriceKeySet(prices), ps, i);
        assert ps[i] in prices + staged;
      }
    }
    NoNewPrices(after, ps);
  }

  /** Loading the same file for the same date again after a successful
      commit stages nothing. */
  lemma ReingestStagesNothing(file: Bhavcopy, tradeDate: string, stocks: seq<Stock>, prices: seq<DailyPrice>,
                              p: Parsers)
    requires Plan(file, tradeDate, SymbolSet(stocks), PriceKeySet(prices), p).Success?
    ensures var plan := Plan(file, tradeDate, SymbolSet(stocks), PriceKeySet(prices), p).value;
      Plan(file, tradeDate, SymbolSet(stocks + plan.stocks), PriceKeySet(prices + plan.prices), p)
        == Success(Staging([], []))
  {
    PlanValue(file, tradeDate, SymbolSet(stocks), PriceKeySet(prices), p);
    var plan := Plan(file, tradeDate, SymbolSet(stocks), PriceKeySet(prices), p).value;
    var rows := Table(file).value;
    var ps := PricesOf(rows, p.fromIsoFormat(tradeDate).value, p.parseFloat).value;
    StocksCovered(stocks, rows);
    FirstSeenAllKnown(SymbolSet(stocks + plan.stocks), Symbols(rows));
    PricesCovered(prices, ps);
    PlanValue(file, tradeDate, SymbolSet(stocks + plan.stocks), PriceKeySet(prices + plan.prices), p);
  }
}
