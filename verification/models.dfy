/** The shared data contracts: quotes, search results and the per-symbol
    stock history (Shared/Models). */
module SharedModels {
  import opened Wrappers

  /** A calendar day, counted from DateTime.MinValue (day 0). Dates in the
      source carry no time of day (DateTime.Today). */
  type Day = nat

  /** DateTime.MinValue: the value of a DateTime property nobody assigned. */
  const MinDay: Day := 0

  /** A point-in-time price snapshot (JSON names c, h, l, o, pc). Prices are
      whole numbers here: the core only ever compares a price with zero. */
  datatype Quote = Quote(
    currentPrice: int,
    highPrice: int,
    lowPrice: int,
    openPrice: int,
    previousClosePrice: int)

  /** One entry of a symbol search; every string may be null. */
  datatype SearchResultItem = SearchResultItem(
    description: Option<string>,
    displaySymbol: Option<string>,
    symbol: Option<string>,
    securityType: Option<string>)

  /** A stock history as the document store keeps it: the JSON document
      {id, IsActivelyTracked, CreatedOn, LastUpdated, QuoteHistory}. */
  datatype HistoryRecord = HistoryRecord(
    id: string,
    isActivelyTracked: bool,
    createdOn: Day,
    lastUpdated: Day,
    quoteHistory: seq<Quote>)
  {
    /** The daily pass picks a record only when it was last updated before today. */
    predicate IsStaleOn(today: Day) {
      lastUpdated < today
    }

    /** The record was not last updated before it was created. */
    predicate IsChronological() {
      createdOn <= lastUpdated
    }

    /** The record after the daily pass appended `quote` and stamped `today`. */
    function WithQuoteAppended(quote: Quote, today: Day): HistoryRecord {
      this.(quoteHistory := quoteHistory + [quote], lastUpdated := today)
    }
  }

  /** The identifiers of a sequence of records, in order. */
  function IdsOf(records: seq<HistoryRecord>): (ids: seq<string>)
    ensures |ids| == |records|
  {
    seq(|records|, i requires 0 <= i < |records| => records[i].id)
  }

  lemma IdsOfCons(r: HistoryRecord, rest: seq<HistoryRecord>)
    ensures IdsOf([r] + rest) == [r.id] + IdsOf(rest)
  {
  }

  /** The document `new StockHistory(id, firstQuote)` makes on `today`. */
  function SeededRecord(id: string, firstQuote: Quote, today: Day): HistoryRecord {
    HistoryRecord(id, true, today, today, [firstQuote])
  }

  /** The document `new StockHistory(id)` makes on `today`: LastUpdated keeps
      its default. */
  function TrackedRecord(id: string, today: Day): HistoryRecord {
    HistoryRecord(id, true, today, MinDay, [])
  }

  /** The in-memory stock history object. Its id is never reassigned once the
      object exists, so it is a constant here. */
  class StockHistory {
    const id: string
    var isActivelyTracked: bool
    var createdOn: Day
    var lastUpdated: Day
    var quoteHistory: seq<Quote>

    /** The document this object serializes to. */
    function ToDocument(): HistoryRecord
      reads this
    {
      HistoryRecord(id, isActivelyTracked, createdOn, lastUpdated, quoteHistory)
    }

    /** `new StockHistory(id, firstQuote)` on day `today`. */
    constructor WithFirstQuote(id: string, firstQuote: Quote, today: Day)
      ensures this.id == id && isActivelyTracked
      ensures createdOn == today && lastUpdated == today
      ensures quoteHistory == [firstQuote]
      ensures ToDocument() == SeededRecord(id, firstQuote, today)
    {
      this.id := id;
      isActivelyTracked := true;
      createdOn := today;
      lastUpdated := today;
      quoteHistory := [firstQuote];
    }

    /** `new StockHistory(id)` on day `today`: no quote yet, LastUpdated left
        at DateTime.MinValue. */
    constructor (id: string, today: Day)
      ensures this.id == id && isActivelyTracked
      ensures createdOn == today && lastUpdated == MinDay
      ensures quoteHistory == []
      ensures ToDocument() == TrackedRecord(id, today)
    {
      this.id := id;
      isActivelyTracked := true;
      createdOn := today;
      lastUpdated := MinDay;
      quoteHistory := [];
    }

    /** The parameterless constructor followed by the JSON property setters:
        how a document read from the store becomes an object. */
    constructor FromDocument(doc: HistoryRecord)
      ensures ToDocument() == doc
    {
      id := doc.id;
      isActivelyTracked := doc.isActivelyTracked;
      createdOn := doc.createdOn;
      lastUpdated := doc.lastUpdated;
      quoteHistory := doc.quoteHistory;
    }
  }

  /** A record seeded with its first quote is current on the day it is made,
      and its dates are in order. */
  lemma SeededRecordIsCurrent(id: string, firstQuote: Quote, today: Day)
    ensures SeededRecord(id, firstQuote, today).IsChronological()
    ensures !SeededRecord(id, firstQuote, today).IsStaleOn(today)
    ensures SeededRecord(id, firstQuote, today).quoteHistory == [firstQuote]
  {
  }

  /** A record made with the id only is stale on every day the clock can
      report, the day it was made included, and its dates are out of order
      until the first append. */
  lemma TrackedRecordIsStale(id: string, createdOn: Day, today: Day)
    requires today > MinDay
    ensures TrackedRecord(id, createdOn).IsStaleOn(today)
    ensures createdOn > MinDay ==> !TrackedRecord(id, createdOn).IsChronological()
  {
  }

  /** Appending on a day no earlier than creation puts the dates in order and
      makes the record current for that day; nothing but the quote list and
      LastUpdated changes. */
  lemma AppendingRestoresChronology(h: HistoryRecord, quote: Quote, today: Day)
    requires h.createdOn <= today
    ensures h.WithQuoteAppended(quote, today).IsChronological()
    ensures !h.WithQuoteAppended(quote, today).IsStaleOn(today)
    ensures h.WithQuoteAppended(quote, today).quoteHistory[..|h.quoteHistory|] == h.quoteHistory
    ensures h.WithQuoteAppended(quote, today).quoteHistory[|h.quoteHistory|] == quote
  {
  }
}
