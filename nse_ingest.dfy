/** scripts/bse_ingest.py: NSE corporate announcements become `BSEEvent` rows
    tagged "results" or "order"; an announcement already stored under the same
    (symbol, headline) is skipped. The HTTP fetch is replaced by its decoded
    JSON rows and `date.today()` by a parameter. */
module NseIngest {
  import opened Wrappers
  import opened Dates
  import opened Text
  import opened Store

  const ResultKeywords: seq<string> := ["result", "financial", "quarter", "q1", "q2", "q3", "q4"]
  const OrderKeywords: seq<string> := ["order", "contract", "tender", "award", "loi"]

  /** `classify_event`: result keywords are checked before order keywords. */
  function ClassifyEvent(text: string): (r: Option<string>)
    ensures r == Some("results") <==> AnyKeyword(Lower(text), ResultKeywords)
    ensures r == Some("order") <==> !AnyKeyword(Lower(text), ResultKeywords) && AnyKeyword(Lower(text), OrderKeywords)
    ensures r.None? <==> !AnyKeyword(Lower(text), ResultKeywords) && !AnyKeyword(Lower(text), OrderKeywords)
  {
    var t := Lower(text);
    if AnyKeyword(t, ResultKeywords) then Some("results")
    else if AnyKeyword(t, OrderKeywords) then Some("order")
    else None
  }

  /** One announcement of the JSON feed: `row.get("symbol")`, `row.get("subject")`. */
  datatype FeedRow = FeedRow(symbol: Option<string>, subject: Option<string>)

  /** The row has a non-empty symbol and subject and a category. */
  predicate Relevant(row: FeedRow) {
    row.symbol.Some? && row.symbol.value != "" && row.subject.Some? && row.subject.value != ""
    && ClassifyEvent(row.subject.value).Some?
  }

  function EventOf(row: FeedRow, today: Date): EventRow
    requires Relevant(row)
  {
    EventRow(row.symbol.value, today, row.subject.value, ClassifyEvent(row.subject.value).value, "nse")
  }

  /** The events the loop stages: relevant rows whose (symbol, headline) is not
      committed, in feed order. Autoflush is off, so a row repeated in the feed
      is staged each time. */
  function NewEvents(stored: set<(string, string)>, rows: seq<FeedRow>, today: Date): (r: seq<EventRow>)
    ensures |r| <= |rows|
  {
    if rows == [] then []
    else
      var p := NewEvents(stored, rows[..|rows| - 1], today);
      var row := rows[|rows| - 1];
      if Relevant(row) && (row.symbol.value, row.subject.value) !in stored then p + [EventOf(row, today)] else p
  }

  /** Every staged event comes from a relevant, not yet stored feed row, is
      dated today, sourced "nse" and tagged "results" or "order". */
  lemma {:induction false} NewEventsShape(stored: set<(string, string)>, rows: seq<FeedRow>, today: Date)
    ensures forall e :: e in NewEvents(stored, rows, today) ==>
      e.eventDate == today && e.source == "nse" && (e.category == "results" || e.category == "order")
      && e.symbol != "" && e.headline != "" && (e.symbol, e.headline) !in stored
      && FeedRow(Some(e.symbol), Some(e.headline)) in rows
  {
    if rows != [] {
      var init := rows[..|rows| - 1];
      NewEventsShape(stored, init, today);
      forall e | e in NewEvents(stored, init, today)
        ensures FeedRow(Some(e.symbol), Some(e.headline)) in rows
      {
        assert FeedRow(Some(e.symbol), Some(e.headline)) in init;
      }
    }
  }

  /** A relevant row whose key is not stored is always staged. */
  lemma {:induction false} NewEventsComplete(stored: set<(string, string)>, rows: seq<FeedRow>, today: Date, i: nat)
    requires i < |rows| && Relevant(rows[i]) && (rows[i].symbol.value, rows[i].subject.value) !in stored
    ensures EventOf(rows[i], today) in NewEvents(stored, rows, today)
  {
    if i < |rows| - 1 {
      var init := rows[..|rows| - 1];
      assert init[i] == rows[i];
      NewEventsComplete(stored, init, today, i);
    }
  }

  /** Once the staged events are committed, the same feed stages nothing. */
  lemma {:induction false} ReingestStagesNothing(events: seq<EventRow>, rows: seq<FeedRow>, today: Date)
    ensures NewEvents(EventKeySet(events + NewEvents(EventKeySet(events), rows, today)), rows, today) == []
  {
    var staged := NewEvents(EventKeySet(events), rows, today);
    var after := EventKeySet(events + staged);
    forall i | 0 <= i < |rows| && Relevant(rows[i])
      ensures (rows[i].symbol.value, rows[i].subject.value) in after
    {
      var e := EventOf(rows[i], today);
      if (rows[i].symbol.value, rows[i].subject.value) !in EventKeySet(events) {
        NewEventsComplete(EventKeySet(events), rows, today, i);
        assert e in events + staged;
      } else {
        var x :| x in events && (x.symbol, x.headline) == (rows[i].symbol.value, rows[i].subject.value);
        assert x in events + staged;
      }
    }
    NothingNew(after, rows, today);
  }

  lemma {:induction false} NothingNew(stored: set<(string, string)>, rows: seq<FeedRow>, today: Date)
    requires forall i :: 0 <= i < |rows| && Relevant(rows[i]) ==> (rows[i].symbol.value, rows[i].subject.value) in stored
    ensures NewEvents(stored, rows, today) == []
  {
    if rows != [] {
      NothingNew(stored, rows[..|rows| - 1], today);
    }
  }

  /** What one more feed row adds to the staged events. */
  lemma NewEventsStep(stored: set<(string, string)>, rows: seq<FeedRow>, today: Date, i: nat)
    requires i < |rows|
    ensures NewEvents(stored, rows[..i + 1], today)
         == NewEvents(stored, rows[..i], today)
            + (if Relevant(rows[i]) && (rows[i].symbol.value, rows[i].subject.value) !in stored
               then [EventOf(rows[i], today)] else [])
  {
    assert rows[..i + 1][..i] == rows[..i] && rows[..i + 1][i] == rows[i];
  }

  /** The loop body of `ingest_bse_events` for one feed row: skip it when the
      symbol or subject is missing or empty, when it has no category, or when
      its (symbol, headline) is committed; otherwise stage its event. */
  method StageEvent(db: Session, row: FeedRow, today: Date) returns (staged: bool)
    modifies db
    ensures staged <==> Relevant(row) && (row.symbol.value, row.subject.value) !in old(db.EventKeys())
    ensures db.newEvents == old(db.newEvents) + (if staged then [EventOf(row, today)] else [])
    ensures db.stocks == old(db.stocks) && db.prices == old(db.prices) && db.options == old(db.options)
    ensures db.events == old(db.events)
    ensures db.newStocks == old(db.newStocks) && db.newPrices == old(db.newPrices) && db.newOptions == old(db.newOptions)
  {
    if row.symbol.None? || row.symbol.value == "" || row.subject.None? || row.subject.value == "" {
      return false;
    }
    var category := ClassifyEvent(row.subject.value);
    if category.None? {
      return false;
    }
    if (row.symbol.value, row.subject.value) in db.EventKeys() {
      return false;
    }
    db.AddEvent(EventRow(row.symbol.value, today, row.subject.value, category.value, "nse"));
    return true;
  }

  /** `ingest_bse_events` after the fetch: stages the new events, commits when
      there is at least one, and returns the number staged. The events table
      has no unique constraint, so on a fresh session the commit succeeds. */
  method IngestEvents(db: Session, rows: seq<FeedRow>, today: Date) returns (inserted: nat)
    requires db.Valid() && db.NothingPending()
    modifies db
    ensures db.Valid() && db.NothingPending()
    ensures var staged := NewEvents(old(db.EventKeys()), rows, today);
      inserted == |staged| && db.events == old(db.events) + staged
    ensures db.stocks == old(db.stocks) && db.prices == old(db.prices) && db.options == old(db.options)
  {
    ghost var stored := db.EventKeys();
    inserted := 0;
    for i := 0 to |rows|
      invariant db.stocks == old(db.stocks) && db.prices == old(db.prices) && db.options == old(db.options)
      invariant db.events == old(db.events)
      invariant db.newStocks == [] && db.newPrices == [] && db.newOptions == []
      invariant db.newEvents == NewEvents(stored, rows[..i], today)
      invariant inserted == |db.newEvents|
    {
      NewEventsStep(stored, rows, today, i);
      var staged := StageEvent(db, rows[i], today);
      if staged {
        inserted := inserted + 1;
      }
    }
    assert rows[..|rows|] == rows;
    if inserted > 0 {
      AppendNothing(db.stocks);
      AppendNothing(db.prices);
      var ok := db.Commit();
    }
  }
}
