/** The API worker (APIWorker/Worker.cs): loading the stored histories, the
    list of tracked symbols, the daily quote-history pass and the choice of
    symbol from a search reply. */
module Worker {
  import opened Wrappers
  import opened SharedModels
  import opened HistoryStore
  import opened DailySpec

  /** The ids of in-memory histories, in order. */
  function IdsOfObjects(histories: seq<StockHistory>): (ids: seq<string>)
    ensures |ids| == |histories|
  {
    seq(|histories|, i requires 0 <= i < |histories| => histories[i].id)
  }

  lemma IdsOfObjectsCons(h: StockHistory, rest: seq<StockHistory>)
    ensures IdsOfObjects([h] + rest) == [h.id] + IdsOfObjects(rest)
  {
  }

  /** `FirstOrDefault(x => x.id == symbol)` over in-memory histories. */
  function FirstOrDefault(histories: seq<StockHistory>, symbol: string): (found: StockHistory?)
    ensures found == null <==> symbol !in IdsOfObjects(histories)
    ensures found != null ==> found.id == symbol
    ensures found != null ==>
      exists k :: 0 <= k < |histories| && histories[k] == found && symbol !in IdsOfObjects(histories[..k])
  {
    var k := FirstIndexOf(IdsOfObjects(histories), symbol);
    if k < 0 then null
    else
      assert IdsOfObjects(histories[..k]) == IdsOfObjects(histories)[..k];
      histories[k]
  }

  /** `Where(x => x.LastUpdated < today).ToList()` over in-memory histories. */
  function WhereStale(histories: seq<StockHistory>, today: Day): seq<StockHistory>
    reads histories
  {
    if histories == [] then []
    else if histories[0].lastUpdated < today then [histories[0]] + WhereStale(histories[1..], today)
    else WhereStale(histories[1..], today)
  }

  /** Filtering objects that hold the listed documents picks the ids the
      value-level filter picks. */
  lemma {:induction false} WhereStaleMatches(histories: seq<StockHistory>, docs: seq<HistoryRecord>, today: Day)
    requires |histories| == |docs|
    requires forall k :: 0 <= k < |docs| ==> histories[k].ToDocument() == docs[k]
    ensures IdsOfObjects(WhereStale(histories, today)) == IdsOf(StaleRecords(docs, today))
  {
    if histories != [] {
      assert forall k :: 0 <= k < |docs| - 1 ==> histories[1..][k].ToDocument() == docs[1..][k] by {
        forall k | 0 <= k < |docs| - 1 ensures histories[1..][k].ToDocument() == docs[1..][k] {
          assert histories[1..][k] == histories[k + 1];
        }
      }
      WhereStaleMatches(histories[1..], docs[1..], today);
      assert histories[0].ToDocument() == docs[0];
      var tail := WhereStale(histories[1..], today);
      if histories[0].lastUpdated < today {
        IdsOfObjectsCons(histories[0], tail);
        IdsOfCons(docs[0], StaleRecords(docs[1..], today));
      }
    }
  }

  /** GetExistingStockHistories: every document of every page, in page order,
      each deserialized into a new object. */
  method GetExistingStockHistories(container: Container) returns (stocks: seq<StockHistory>)
    requires container.Valid()
    ensures |stocks| == |container.Listing()|
    ensures forall k :: 0 <= k < |stocks| ==> fresh(stocks[k]) && stocks[k].ToDocument() == container.Listing()[k]
  {
    stocks := [];
    var feed := container.GetItemQueryIterator();
    ghost var listed: seq<HistoryRecord> := [];
    while feed.HasMoreResults()
      invariant fresh(feed) && feed.Valid()
      invariant listed == Flatten(feed.pages[..feed.next])
      invariant |stocks| == |listed|
      invariant forall k :: 0 <= k < |stocks| ==> fresh(stocks[k]) && stocks[k].ToDocument() == listed[k]
      decreases |feed.pages| - feed.next
    {
      ghost var before := feed.pages[..feed.next];
      var response := feed.ReadNext();
      ghost var afterRead := feed.next;
      var j := 0;
      while j < |response|
        invariant feed.next == afterRead
        invariant 0 <= j <= |response|
        invariant |stocks| == |listed| + j
        invariant forall k :: 0 <= k < |stocks| ==> fresh(stocks[k]) && stocks[k].ToDocument() == (listed + response[..j])[k]
      {
        var item := new StockHistory.FromDocument(response[j]);
        stocks := stocks + [item];
        j := j + 1;
      }
      assert response[..j] == response;
      assert feed.pages[..feed.next] == before + [response];
      FlattenSnoc(before, response);
      listed := listed + response;
    }
    assert feed.pages[..feed.next] == feed.pages;
  }

  /** GetSymbolsList: the ids of all stored histories, in listing order,
      whether or not they are actively tracked. (The source repeats the
      paging loop of GetExistingStockHistories inline.) */
  method GetSymbolsList(container: Container) returns (symbols: seq<string>)
    requires container.Valid()
    ensures |symbols| == |container.Listing()|
    ensures forall k :: 0 <= k < |symbols| ==> symbols[k] == container.Listing()[k].id
  {
    var stockHistories := GetExistingStockHistories(container);
    symbols := [];
    var i := 0;
    while i < |stockHistories|
      invariant 0 <= i <= |stockHistories|
      invariant |symbols| == i
      invariant forall k :: 0 <= k < i ==> symbols[k] == container.Listing()[k].id
    {
      symbols := symbols + [stockHistories[i].id];
      i := i + 1;
    }
  }

  /** UpsertQuoteHistory. The store ends as UpsertWith says, given the state
      of the object FirstOrDefault finds. That object itself gets the quote
      and today's date as soon as the read succeeds, whether or not the
      replace then succeeds; no other object changes. */
  method UpsertQuoteHistory(container: Container, symbol: string, quote: Quote,
                            existingStockHistories: seq<StockHistory>, env: PassEnvironment)
    requires container.Valid()
    modifies container, existingStockHistories
    ensures container.Valid()
    ensures var found := FirstOrDefault(existingStockHistories, symbol);
      container.Contents() == UpsertWith(old(container.Contents()),
                                         if found == null then None else Some(old(found.ToDocument())),
                                         symbol, quote, env)
    ensures var found := FirstOrDefault(existingStockHistories, symbol);
      found != null ==>
        found.ToDocument() == if old(container.Contents()).Read(symbol, env.readFails(symbol)).Some?
                              then old(found.ToDocument()).WithQuoteAppended(quote, env.today)
                              else old(found.ToDocument())
    ensures forall k :: 0 <= k < |existingStockHistories| && existingStockHistories[k].id != symbol ==>
      existingStockHistories[k].ToDocument() == old(existingStockHistories[k].ToDocument())
  {
    var existingStockHistory := FirstOrDefault(existingStockHistories, symbol);
    if existingStockHistory == null {
      var newHistory := new StockHistory.WithFirstQuote(symbol, quote, env.today);
      var created := container.CreateItem(newHistory.ToDocument(), env.writeFails(symbol));
    } else {
      var response := container.ReadItem(symbol, env.readFails(symbol));
      if response.Some? {
        existingStockHistory.quoteHistory := existingStockHistory.quoteHistory + [quote];
        existingStockHistory.lastUpdated := env.today;
        var replaced := container.ReplaceItem(existingStockHistory.ToDocument(), env.writeFails(symbol));
      }
    }
  }

  /** The objects GetDailyQueries selects are the stale snapshot records, by
      id and in order; their ids are distinct and listed. */
  lemma StaleSelection(existing: seq<StockHistory>, snapshot: seq<HistoryRecord>, today: Day)
    requires |existing| == |snapshot| && Distinct(IdsOf(snapshot))
    requires forall k :: 0 <= k < |snapshot| ==> existing[k].ToDocument() == snapshot[k]
    ensures IdsOfObjects(existing) == IdsOf(snapshot)
    ensures IdsOfObjects(WhereStale(existing, today)) == IdsOf(StaleRecords(snapshot, today))
    ensures Distinct(IdsOf(StaleRecords(snapshot, today)))
    ensures forall id :: id in IdsOf(StaleRecords(snapshot, today)) ==> id in IdsOf(snapshot)
  {
    WhereStaleMatches(existing, snapshot, today);
    assert IdsOfObjects(existing) == IdsOf(snapshot);
    StaleIdsDistinct(snapshot, today);
    StaleIdsListed(snapshot, today);
  }

  lemma NextIdNotHandled(ids: seq<string>, i: nat)
    requires Distinct(ids) && i < |ids|
    ensures ids[i] !in ids[..i]
  {
    assert forall j :: 0 <= j < i ==> ids[..i][j] != ids[i];
  }

  lemma PrefixSnoc(s: seq<string>, i: nat, next: nat)
    requires next == i + 1 <= |s|
    ensures s[..next] == s[..i] + [s[i]]
  {
  }

  /** While the pass runs, the object FirstOrDefault finds for a symbol not
      handled yet still holds the snapshot record that FirstWithId finds. */
  lemma SnapshotObjectFound(existing: seq<StockHistory>, snapshot: seq<HistoryRecord>, handled: seq<string>, symbol: string)
    requires |existing| == |snapshot| && IdsOfObjects(existing) == IdsOf(snapshot)
    requires symbol in IdsOf(snapshot) && symbol !in handled
    requires forall k :: 0 <= k < |existing| && existing[k].id !in handled ==> existing[k].ToDocument() == snapshot[k]
    ensures FirstOrDefault(existing, symbol) != null
    ensures FirstWithId(snapshot, symbol) == Some(FirstOrDefault(existing, symbol).ToDocument())
  {
    var k := FirstIndexOf(IdsOf(snapshot), symbol);
    assert existing[k].id == symbol;
  }

  /** One step of the pass: upserting a stale symbol not handled yet goes
      through the snapshot object, which still holds its snapshot record. */
  method UpsertStale(container: Container, existing: seq<StockHistory>, ghost snapshot: seq<HistoryRecord>,
                     ghost handled: seq<string>, symbol: string, quote: Quote, env: PassEnvironment)
    requires container.Valid()
    requires |existing| == |snapshot| && IdsOfObjects(existing) == IdsOf(snapshot)
    requires symbol in IdsOf(snapshot) && symbol !in handled
    requires forall k :: 0 <= k < |existing| && existing[k].id !in handled ==> existing[k].ToDocument() == snapshot[k]
    modifies container, existing
    ensures container.Valid()
    ensures container.Contents() == Upsert(old(container.Contents()), snapshot, symbol, quote, env)
    ensures forall k :: 0 <= k < |existing| && existing[k].id !in handled + [symbol] ==> existing[k].ToDocument() == snapshot[k]
  {
    SnapshotObjectFound(existing, snapshot, handled, symbol);
    UpsertQuoteHistory(container, symbol, quote, existing, env);
  }

  /** GetDailyQueries: the store ends as DailyQueries says, and the pass
      returns its count or ends with the failed fetch. */
  method GetDailyQueries(container: Container, env: PassEnvironment) returns (outcome: PassOutcome)
    requires container.Valid()
    modifies container
    ensures container.Valid()
    ensures container.Contents() == DailyQueries(old(container.Contents()), env).store
    ensures outcome == DailyQueries(old(container.Contents()), env).outcome
  {
    ghost var initial := container.Contents();
    var existingStockHistories := GetExistingStockHistories(container);
    ghost var snapshot := container.Listing();
    ghost var stale := StaleRecords(snapshot, env.today);
    ghost var staleIds := IdsOf(stale);
    var stocksToUpdate := WhereStale(existingStockHistories, env.today);

    ListingIds(initial);
    StaleSelection(existingStockHistories, snapshot, env.today);

    ghost var goal := RunPass(initial, snapshot, stale, env, 0);
    ghost var store := initial;
    var stocksUpdatedCount := 0;
    var i := 0;
    while i < |stocksToUpdate|
      invariant 0 <= i <= |stocksToUpdate| == |stale|
      invariant stocksUpdatedCount == i
      invariant container.Valid() && container.Contents() == store
      invariant RunPass(store, snapshot, stale[i..], env, i) == goal
      invariant forall k :: 0 <= k < |existingStockHistories| && existingStockHistories[k].id !in staleIds[..i] ==>
        existingStockHistories[k].ToDocument() == snapshot[k]
    {
      var stock := stocksToUpdate[i];
      assert stock.id == staleIds[i] == stale[i].id;
      var result := env.fetch(stock.id);
      if result.None? {
        RunPassStop(store, snapshot, stale, env, i, i);
        return FetchFailed(stock.id);
      }
      NextIdNotHandled(staleIds, i);
      ghost var handled, before, k := staleIds[..i], store, i;
      UpsertStale(container, existingStockHistories, snapshot, handled, stock.id, result.value, env);
      store := Upsert(store, snapshot, stock.id, result.value, env);
      stocksUpdatedCount := stocksUpdatedCount + 1;
      i := i + 1;
      RunPassStep(before, snapshot, stale, env, k, i, stock.id, result.value);
      PrefixSnoc(staleIds, k, i);
    }
    return Counted(stocksUpdatedCount);
  }

  /** The body of a symbol-search reply (the SearchResponse class is not part
      of this model; only its `result` list is read). */
  datatype SearchResponse = SearchResponse(result: Option<seq<SearchResultItem>>)

  /** What the HTTP call and the JSON deserializer made of a symbol search. */
  datatype SearchReply =
    | CallThrew                             // an exception the method does not catch: building the
                                            // URL with a null API key, GetAsync throwing anything but
                                            // HttpRequestException (a timeout), or reading the body
    | RequestFailed                         // GetAsync threw HttpRequestException
    | NonSuccessStatus                      // the status code was not a success
    | MalformedBody                         // Deserialize threw
    | Parsed(data: Option<SearchResponse>)  // Deserialize returned; None for a JSON null

  /** Char.IsWhiteSpace of .NET. */
  predicate IsDotNetWhiteSpace(c: char) {
    || '\t' <= c <= '\r'
    || c == ' ' || c == '\U{85}' || c == '\U{A0}' || c == '\U{1680}'
    || '\U{2000}' <= c <= '\U{200A}'
    || c == '\U{2028}' || c == '\U{2029}' || c == '\U{202F}' || c == '\U{205F}' || c == '\U{3000}'
  }

  /** string.IsNullOrWhiteSpace */
  predicate IsNullOrWhiteSpace(s: Option<string>) {
    s.None? || forall i :: 0 <= i < |s.value| ==> IsDotNetWhiteSpace(s.value[i])
  }

  /** `data?.result?.FirstOrDefault()?.symbol` */
  function FirstSymbol(data: Option<SearchResponse>): Option<string> {
    if data.Some? && data.value.result.Some? && |data.value.result.value| > 0
    then data.value.result.value[0].symbol
    else None
  }

  /** The result-selection part of FinnhubLookupSymbol: the first result's
      symbol when it has one that is not blank; null when the request failed
      with an HttpRequestException, the status was not a success, or there is
      no such symbol; an exception when an uncaught call throws or the body
      does not deserialize. */
  function FinnhubLookupSymbol(reply: SearchReply): (r: Outcome<string>)
    ensures r.Threw? <==> reply.CallThrew? || reply.MalformedBody?
    ensures r.Value? ==> reply.Parsed? && FirstSymbol(reply.data) == Some(r.value)
    ensures r.Value? ==> exists i :: 0 <= i < |r.value| && !IsDotNetWhiteSpace(r.value[i])
    ensures reply.Parsed? && !IsNullOrWhiteSpace(FirstSymbol(reply.data)) ==> r.Value?
  {
    match reply
    case CallThrew => Threw
    case RequestFailed => Null
    case NonSuccessStatus => Null
    case MalformedBody => Threw
    case Parsed(data) =>
      var firstSymbol := FirstSymbol(data);
      if IsNullOrWhiteSpace(firstSymbol) then Null else Value(firstSymbol.value)
  }
}
