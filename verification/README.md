# Stock market app: daily quote reconciliation and its front ends, in Dafny

This project models the core of a small stock-tracking application. The
application has an ASP.NET API worker that keeps one history document per
tracked symbol in a document store. Once a day it appends a fresh quote to
every history that was not yet updated that day. A controller turns the
worker's results into HTTP status codes. Two Angular components let a user
search for and add symbols and filter the tracked list.

The model covers these parts:

- **SharedModels** (`models.dfy`): the `Quote` and `SearchResultItem`
  records, and the stock history. The history appears both as the stored
  document (`HistoryRecord`, a value) and as the in-memory `StockHistory`
  object, whose fields the worker updates in place (a class with its three
  constructors).
- **HistoryStore** (`history_store.dfy`): the document container as the
  worker uses it.
  - A paged listing in a fixed order.
  - Point reads, creates that refuse an id already present, and
    whole-document replaces.
  - Point reads, creates and replaces may fail. The listing is assumed to
    succeed.
  - `Collection` states the contents as a value. The `Container` and
    `FeedIterator` classes hold that value and change it in place.
- **DailySpec** (`daily_spec.dfy`): the daily pass stated on values.
  - `StaleRecords` is the `LastUpdated < today` filter.
  - `FirstWithId` is `FirstOrDefault` by id.
  - `UpsertWith` is the create-or-replace branch.
  - `RunPass` is the loop.
  - `DailyQueries` is the whole pass.
  - The quote service and store faults are an oracle parameter, `PassEnvironment`.
- **Worker** (`worker.dfy`): the worker's methods in imperative form. They
  are proved to leave the container exactly as `DailyQueries` says and to
  return the same outcome. The result selection of `FinnhubLookupSymbol` is
  also here.
- **DailyProperties** (`daily_properties.dfy`): what the pass guarantees.
  - It never creates a document.
  - Only stale documents change.
  - The count is the number of stale documents.
  - A failed quote fetch aborts the pass where it happens.
  - A fault-free pass appends exactly one quote to each stale document.
  - A second pass on the same day is a no-op.
  - A newly tracked symbol gets its first quote.
- **StocksController** (`stocks_controller.dfy`): the status-code decision
  of each action, as a function of what the worker returned: a value, null,
  or an exception.
- **StockAdder** (`stock_adder.dfy`): the add-a-stock wizard as a class.
  - It is a five-step state machine.
  - It builds the option labels.
  - The symbol submitted is `split(' ')[0].trim()` of the chosen option.
  - A round-trip lemma shows that the label built for a result gives back
    its symbol.
- **MainPage** (`main_page.dfy`): the main page as a class, with the
  case-insensitive filter and the focus, blur and select handlers.

Some behaviour of the code is easy to miss, and the model keeps it:

- **A failed quote fetch aborts the pass.** `GetDailyQueries`
  (Worker.cs:168-173) does not catch the exception from
  `GetFinnhubQuoteAsync`, so the remaining stale symbols are not processed.
  Updates already written stay written (`FetchFailureAborts`).
- **Store faults are swallowed, yet counted.** `UpsertQuoteHistory` swallows
  store errors (Worker.cs:197-200 and 214-217), and the loop counts the
  symbol anyway. `RunPassCountsAll` needs only the fetches to succeed.
- **Staleness ignores tracking.** The filter at Worker.cs:165 does not look
  at `IsActivelyTracked`, so untracked histories are updated too.
- **Replace writes the snapshot object.** The update branch reads the stored
  document (Worker.cs:207) and then discards what it read. It writes back
  the object loaded at the start of the pass, with the quote appended
  (`ReplaceWritesSnapshotRecord`).
- **Comments on the branches are swapped.** The comments at Worker.cs:188
  and 204 describe each other's branch. The model follows the code.

## Model

| member | source | states |
|---|---|---|
| SharedModels.StockHistory.WithFirstQuote | StockMarketApp/Shared/Models/StockHistory.cs:19-25 | the new history has the given id, is tracked, was created and last updated today, and holds exactly the first quote |
| SharedModels.StockHistory.constructor | StockMarketApp/Shared/Models/StockHistory.cs:26-31 | the new history has the given id, is tracked, was created today, has no quotes, and its LastUpdated keeps the DateTime.MinValue default |
| SharedModels.StockHistory.FromDocument | StockMarketApp/Shared/Models/StockHistory.cs:33-36 | the parameterless constructor plus the property setters reproduce the stored document exactly |
| SharedModels.SeededRecordIsCurrent | StockMarketApp/Shared/Models/StockHistory.cs:19-25 | a history seeded with a quote is not stale on its creation day, its dates are in order, and its only quote is the first one |
| SharedModels.TrackedRecordIsStale | StockMarketApp/Shared/Models/StockHistory.cs:26-31 | a history made from an id alone is stale on every day after MinValue, and its dates are out of order until its first update |
| SharedModels.AppendingRestoresChronology | StockMarketApp/StockMarketApp.APIWorker/Worker.cs:208-209 | appending a quote and stamping today makes the record current and chronological; the old quotes are kept as a prefix and the new quote comes last |
| DailySpec.StaleRecords | StockMarketApp/StockMarketApp.APIWorker/Worker.cs:165 | a record is in the result exactly when it is in the listing and was last updated before today, and the result is no longer than the listing |
| DailySpec.StaleRecordsIsOrderedFilter | StockMarketApp/StockMarketApp.APIWorker/Worker.cs:165 | the filter keeps listing order and keeps every stale record exactly as often as it occurs in the listing |
| DailySpec.StaleIdsDistinct | StockMarketApp/StockMarketApp.APIWorker/Worker.cs:165 | filtering a listing with distinct ids keeps the ids distinct |
| DailySpec.StaleIdsListed | StockMarketApp/StockMarketApp.APIWorker/Worker.cs:165 | every id picked by the filter is an id of the listing |
| DailySpec.FirstWithId | StockMarketApp/StockMarketApp.APIWorker/Worker.cs:184 | nothing is found exactly when the id is absent; otherwise the record found is the first one in the listing with that id |
| DailySpec.RunPassStep | StockMarketApp/StockMarketApp.APIWorker/Worker.cs:168-175 | a successful fetch at position i upserts that symbol and moves the pass on to position i + 1 with one more counted |
| DailySpec.RunPassStop | StockMarketApp/StockMarketApp.APIWorker/Worker.cs:170 | a failed fetch ends the pass with the store as it stands |
| Worker.FirstOrDefault | StockMarketApp/StockMarketApp.APIWorker/Worker.cs:184 | null exactly when no in-memory history has the id; otherwise the object found is the first element of the list with that id |
| Worker.WhereStaleMatches | StockMarketApp/StockMarketApp.APIWorker/Worker.cs:165 | filtering the objects picks the same ids, in the same order, as filtering the documents they hold |
| Worker.GetExistingStockHistories | StockMarketApp/StockMarketApp.APIWorker/Worker.cs:222-242 | one new object per stored document, across all pages and in listing order, each holding its document |
| Worker.GetSymbolsList | StockMarketApp/StockMarketApp.APIWorker/Worker.cs:31-56 | the ids of all stored histories, in listing order, tracked or not |
| Worker.UpsertQuoteHistory | StockMarketApp/StockMarketApp.APIWorker/Worker.cs:180-219 | the store ends as the create-or-replace specification says; the object found gets the quote and today's date exactly when the read succeeds; no other object changes |
| Worker.UpsertStale | StockMarketApp/StockMarketApp.APIWorker/Worker.cs:173 | during the pass, upserting a stale symbol not handled yet acts on its snapshot record, and every object not yet handled still holds its snapshot record |
| Worker.GetDailyQueries | StockMarketApp/StockMarketApp.APIWorker/Worker.cs:161-177 | the container ends exactly as DailyQueries says, and the method returns the count or the fetch failure that DailyQueries gives |
| Worker.FinnhubLookupSymbol | StockMarketApp/StockMarketApp.APIWorker/Worker.cs:85-131 | throws exactly when an uncaught call throws (URL building with a null key, a non-HttpRequestException from GetAsync, reading the body) or the body does not deserialize; returns a value exactly when the first result has a non-blank symbol, and that value is the symbol; otherwise null |
| DailyProperties.CreateBranchNeverTaken | StockMarketApp/StockMarketApp.APIWorker/Worker.cs:184-201 | during the daily pass, the lookup always finds the snapshot record for a stale symbol, so the create branch is never taken |
| DailyProperties.ReplaceWritesSnapshotRecord | StockMarketApp/StockMarketApp.APIWorker/Worker.cs:205-217 | an upsert for a listed symbol leaves the store unchanged when the id is gone or the read fails; otherwise it replaces the document with the snapshot record plus the quote |
| DailyProperties.RunPassKeepsShape | StockMarketApp/StockMarketApp.APIWorker/Worker.cs:168-175 | the loop keeps the store valid and keeps its ids and listing order |
| DailyProperties.RunPassFrame | StockMarketApp/StockMarketApp.APIWorker/Worker.cs:168-175 | no stored id is lost, and documents whose ids are not processed keep their value |
| DailyProperties.RunPassCountsAll | StockMarketApp/StockMarketApp.APIWorker/Worker.cs:167-176 | when every fetch succeeds, the count grows by exactly the number of symbols processed, whatever the store does |
| DailyProperties.RunPassFailsAt | StockMarketApp/StockMarketApp.APIWorker/Worker.cs:168-173 | when the first failed fetch is at position k, the pass stops there with the store as the first k upserts left it |
| DailyProperties.RunPassAppends | StockMarketApp/StockMarketApp.APIWorker/Worker.cs:205-217 | with no faults, every processed document becomes its snapshot record with the fetched quote appended and today's date |
| DailyProperties.DailyPassCreatesNothing | StockMarketApp/StockMarketApp.APIWorker/Worker.cs:161-219 | the daily pass keeps the store valid, with the same ids in the same order |
| DailyProperties.OnlyStaleRecordsChange | StockMarketApp/StockMarketApp.APIWorker/Worker.cs:165-175 | every document that was not stale is unchanged after the pass |
| DailyProperties.DailyCountIsStaleCount | StockMarketApp/StockMarketApp.APIWorker/Worker.cs:165-176 | when every stale symbol's fetch succeeds, the pass returns the number of stale documents |
| DailyProperties.FetchFailureAborts | StockMarketApp/StockMarketApp.APIWorker/Worker.cs:168-173 | the first failed fetch ends the whole pass with that symbol's failure; the later stale symbols are left as they were |
| DailyProperties.FaultFreePassAppendsOneQuote | StockMarketApp/StockMarketApp.APIWorker/Worker.cs:161-219 | with no faults on the stale symbols, the pass counts every stale document and appends exactly one quote to each; every other document is unchanged |
| DailyProperties.NothingStaleIsNoop | StockMarketApp/StockMarketApp.APIWorker/Worker.cs:165-176 | when every document was updated today, the pass counts zero and leaves the store as it was |
| DailyProperties.SameDayRerunIsNoop | StockMarketApp/StockMarketApp.APIWorker/Worker.cs:161-219 | after a pass with no faults on the stale symbols, a second pass on the same day counts zero and changes nothing |
| DailyProperties.TrackedSymbolGetsFirstQuote | StockMarketApp/StockMarketApp.APIWorker/Worker.cs:205-210 | a symbol only just put under tracking holds exactly one quote, dated today, after the next fault-free pass |
| StocksController.GetQuote | StockMarketApp/StockMarketApp.APIWorker/Controllers/StocksController.cs:26-50 | 400 exactly for a null or empty symbol; 500 exactly when the fetch throws; 404 exactly for a null quote or a price not above zero; a 200 carries the fetched quote |
| StocksController.GetQuoteSkipsWorkerOnEmptySymbol | StockMarketApp/StockMarketApp.APIWorker/Controllers/StocksController.cs:29-32 | for an empty symbol the answer is the same 400 whatever the quote service would do |
| StocksController.GetStocks | StockMarketApp/StockMarketApp.APIWorker/Controllers/StocksController.cs:54-73 | 404 only for a null list; 500 exactly when listing throws; otherwise 200 with the list |
| StocksController.NoTrackedStocksIsOk | StockMarketApp/StockMarketApp.APIWorker/Controllers/StocksController.cs:60-65 | an empty list of tracked stocks is a 200, not a 404 |
| StocksController.GetStockHistory | StockMarketApp/StockMarketApp.APIWorker/Controllers/StocksController.cs:76-99 | 400 exactly for a null or empty symbol; 404 exactly for a null history; 500 exactly when the worker throws; a 200 carries the history |
| StocksController.GetStockHistorySkipsWorkerOnEmptySymbol | StockMarketApp/StockMarketApp.APIWorker/Controllers/StocksController.cs:79-82 | for an empty symbol the answer does not depend on the worker |
| StocksController.DailyUpdate | StockMarketApp/StockMarketApp.APIWorker/Controllers/StocksController.cs:103-115 | 200 with the count exactly when the pass completes; 500 exactly when it throws |
| StocksController.SearchStocks | StockMarketApp/StockMarketApp.APIWorker/Controllers/StocksController.cs:119-137 | 404 exactly for a null lookup, always with an empty quoted symbol; 500 exactly when the lookup throws; 200 with the symbol otherwise |
| StocksController.SearchStocksStatus | StockMarketApp/StockMarketApp.APIWorker/Controllers/StocksController.cs:119-137 | over the lookup: 500 exactly when the lookup throws, whether from an uncaught call or an undeserializable body; 200 exactly when the first result has a non-blank symbol; otherwise 404 |
| StocksController.AddNewSymbol | StockMarketApp/StockMarketApp.APIWorker/Controllers/StocksController.cs:142-154 | 200 naming the symbol added exactly when the worker completes; 500 exactly when it throws |
| StocksController.StopTrackingStock | StockMarketApp/StockMarketApp.APIWorker/Controllers/StocksController.cs:158-170 | 200 naming the requested symbol exactly when the worker completes; 500 exactly when it throws, with the add action's message |
| StockAdder.OptionLabels | StockMarketAppFrontend/StockMarketApp.spa/src/app/pages/stock-adder/stock-adder.component.ts:40-42 | one label per result, in result order, each built from that result's symbol and description |
| StockAdder.FirstToken | StockMarketAppFrontend/StockMarketApp.spa/src/app/pages/stock-adder/stock-adder.component.ts:67 | the first token is a prefix of the text without spaces, and a space follows it unless it is the whole text |
| StockAdder.Trim | StockMarketAppFrontend/StockMarketApp.spa/src/app/pages/stock-adder/stock-adder.component.ts:67 | the result is empty exactly when the text is all white space; otherwise it neither starts nor ends with white space |
| StockAdder.TrimIsInnerSlice | StockMarketAppFrontend/StockMarketApp.spa/src/app/pages/stock-adder/stock-adder.component.ts:67 | trim returns a slice of the text with only white space before and after it |
| StockAdder.SubmittedSymbol | StockMarketAppFrontend/StockMarketApp.spa/src/app/pages/stock-adder/stock-adder.component.ts:67-70 | no request exactly when nothing is chosen or the first token is blank; a symbol sent is non-empty, has no spaces and is trimmed |
| StockAdder.SubmittedSymbolIsTrimmedToken | StockMarketAppFrontend/StockMarketApp.spa/src/app/pages/stock-adder/stock-adder.component.ts:67 | a symbol sent is the first token of the chosen option with the white space around it cut off |
| StockAdder.OptionLabelRoundTrip | StockMarketAppFrontend/StockMarketApp.spa/src/app/pages/stock-adder/stock-adder.component.ts:41 | submitting the option built for a result sends that result's symbol, or nothing if the symbol is empty, whenever the symbol has no white space |
| StockAdder.NullSymbolSubmitsNull | StockMarketAppFrontend/StockMarketApp.spa/src/app/pages/stock-adder/stock-adder.component.ts:41 | a result with a null symbol yields an option that submits the text "null" |
| StockAdder.StockAdderComponent.constructor | StockMarketAppFrontend/StockMarketApp.spa/src/app/pages/stock-adder/stock-adder.component.ts:20-24 | the wizard starts at the initial step, with no text, no options, no choice, the initial title, and nothing sent or emitted |
| StockAdder.StockAdderComponent.StartProcess | StockMarketAppFrontend/StockMarketApp.spa/src/app/pages/stock-adder/stock-adder.component.ts:29-31 | moves to text input and changes nothing else |
| StockAdder.StockAdderComponent.SearchText | StockMarketAppFrontend/StockMarketApp.spa/src/app/pages/stock-adder/stock-adder.component.ts:36 | the query sent is the entered text |
| StockAdder.StockAdderComponent.OnSearchResults | StockMarketAppFrontend/StockMarketApp.spa/src/app/pages/stock-adder/stock-adder.component.ts:37-51 | one label per result is appended after the existing options; an empty reply sets the no-stocks title instead; either way the wizard moves to option selection |
| StockAdder.StockAdderComponent.OnSearchError | StockMarketAppFrontend/StockMarketApp.spa/src/app/pages/stock-adder/stock-adder.component.ts:52-55 | a failed search changes no state |
| StockAdder.StockAdderComponent.SelectedOption | StockMarketAppFrontend/StockMarketApp.spa/src/app/pages/stock-adder/stock-adder.component.ts:60-63 | the chosen option becomes the given one, and nothing else changes |
| StockAdder.StockAdderComponent.SubmitOption | StockMarketAppFrontend/StockMarketApp.spa/src/app/pages/stock-adder/stock-adder.component.ts:65-72 | the request made is the submitted symbol of the chosen option, and none without a choice; a symbol sent is recorded as requested and as awaiting one reply; each reply stays within the requests sent; nothing else changes |
| StockAdder.StockAdderComponent.OnAddSucceeded | StockMarketAppFrontend/StockMarketApp.spa/src/app/pages/stock-adder/stock-adder.component.ts:73-77 | the reply to a pending request completes the wizard, emits that request's symbol and uses the request up, so each request is answered at most once and only sent symbols are emitted; nothing else changes |
| StockAdder.StockAdderComponent.OnAddFailed | StockMarketAppFrontend/StockMarketApp.spa/src/app/pages/stock-adder/stock-adder.component.ts:78-81 | the reply to a pending request moves the wizard to the failed step and uses the request up; nothing else is emitted or changed |
| StockAdder.StockAdderComponent.Reset | StockMarketAppFrontend/StockMarketApp.spa/src/app/pages/stock-adder/stock-adder.component.ts:85-90 | back to the initial step with no options, no choice and no text; the title and the emitted symbols stay |
| MainPage.ToLower | StockMarketAppFrontend/StockMarketApp.spa/src/app/pages/main-page/main-page.component.ts:42 | same length as the input, with each character lowered |
| MainPage.IncludesIsOccurrence | StockMarketAppFrontend/StockMarketApp.spa/src/app/pages/main-page/main-page.component.ts:44 | `includes` holds exactly when the term occurs at some position of the text |
| MainPage.MatchingItems | StockMarketAppFrontend/StockMarketApp.spa/src/app/pages/main-page/main-page.component.ts:43-45 | the filtered list is an order-preserving subsequence of the items; every element matches; each matching item keeps its multiplicity and non-matching items are gone |
| MainPage.EmptyTermMatchesAll | StockMarketAppFrontend/StockMarketApp.spa/src/app/pages/main-page/main-page.component.ts:43-45 | with an empty search term the filter keeps every item, in order |
| MainPage.MainPageComponent.constructor | StockMarketAppFrontend/StockMarketApp.spa/src/app/pages/main-page/main-page.component.ts:19-23 | no items, no filtered items, no term, no queries, and "Test" selected |
| MainPage.MainPageComponent.OnStocksLoaded | StockMarketAppFrontend/StockMarketApp.spa/src/app/pages/main-page/main-page.component.ts:29-32 | the items become the loaded symbols; nothing else changes |
| MainPage.MainPageComponent.OnSearchChange | StockMarketAppFrontend/StockMarketApp.spa/src/app/pages/main-page/main-page.component.ts:41-46 | the filtered list becomes the case-insensitive matches of the term; nothing else changes |
| MainPage.MainPageComponent.OnSearchFocus | StockMarketAppFrontend/StockMarketApp.spa/src/app/pages/main-page/main-page.component.ts:48-52 | with an empty term every item is offered, which is what filtering by that term gives; otherwise nothing changes |
| MainPage.MainPageComponent.OnSearchBlurElapsed | StockMarketAppFrontend/StockMarketApp.spa/src/app/pages/main-page/main-page.component.ts:59-63 | once the delay has passed, the drop-down and the term are cleared; nothing else changes |
| MainPage.MainPageComponent.OnItemSelected | StockMarketAppFrontend/StockMarketApp.spa/src/app/pages/main-page/main-page.component.ts:67-75 | the item is selected, the placeholder queries are shown and the drop-down closes; the items and the term stay |

## Left out

- **I/O:** HTTP requests, JSON (de)serialization, URL building, API keys,
  logging and cancellation tokens are not modelled. Their outcomes are
  parameters of the model:
  - the fetch oracle and the store-fault oracles of `PassEnvironment`;
  - `SearchReply`;
  - the `Outcome` and `Completion` arguments of the controller actions.
- **DateTime.Today:** the clock is the parameter `today`, read once per
  pass. Dates are whole days counted from DateTime.MinValue. The source
  reads the clock for the filter (Worker.cs:165) and again for each stamp
  (Worker.cs:209). A pass that runs past midnight therefore stamps later
  records with the next day. The model does not capture this.
- **Quote prices:** prices are integers rather than decimals. The core only
  compares the current price with zero.
- **Quote.Date:** the worker sets `quote.Date` on each fetched quote.
  `Quote.cs` declares no such property, so the model has none either.
- **GetFinnhubQuoteAsync:** this is the fetch oracle. A non-success status
  throws. This appears as `None` in `PassEnvironment.fetch`.
- **AddStockSymbolToCosmos:** not modelled beyond what the controller
  decides from its completion. It lies outside the daily pass.
- **Worker calls not in Worker.cs:** `PerformDailyQueries`,
  `GetSelectedStockHistory` and `MarkStockUntracked` are called by the
  controller but are not part of this model. Their results are parameters.
- **SearchResponse and StockSearchResponse:** the `SearchResponse` class is
  not part of this model. Only its `result` list is read.
- **The scraper worker:** not part of this model.
- **Document store:** the store is a value with per-symbol fault oracles.
  The model leaves out request charges, status codes other than
  success/failure, partition keys and concurrent writers.
- **Listing failures:** `ReadNextAsync` can throw, for example on a store
  error or a cancellation (Worker.cs:43 and 233). `GetSymbolsList` or
  `GetDailyQueries` then ends before any fetch or write. The model's listing
  always succeeds, and `PassOutcome` has no case for this failure.
- **Worker.GetExistingStockHistories:** the pages come from the feed
  iterator of a fixed listing. Page boundaries do not affect the result, and
  the model does not state anything about them.
- **StocksController.DailyUpdate:** the 200 body is the count itself, not
  the sentence built around it, because number formatting is not modelled.
- **StocksController.GetStocks:** the body is the list of ids. The declared
  `List<StockSymbol>` return type is not modelled.
- **StockAdder.StockAdderComponent.OnSearchResults:** a reply whose `result`
  is null (the TypeScript would throw) is not modelled.
- **Angular two-way bindings:** the bindings that set `enteredText` and
  `searchTerm` from the template are not modelled. They appear only as the
  fields' values.
- **Logging-only handlers:** the error callbacks and the main page's
  `onAddStock` and `onRunUpdate` handlers only log. They have no effect on
  state.
- **Timing:** `onSearchBlur` clears the drop-down after a 150 ms timer.
  `OnSearchBlurElapsed` models only what the timer does when it fires, not
  the delay.
- **Aliasing:** `onSearchFocus` makes `filteredItems` the same array object
  as `items`. The model has values only, so it does not capture that later
  changes to one array would show in the other.
- **MainPage.ToLower:** only ASCII letters are lowered. The full Unicode
  case mapping of `toLowerCase` is not modelled.
- **StockAdder.OptionLabels:** a result field that is missing from the JSON
  renders as "undefined" in the option label. `Rendered` models only a
  `null`, which renders as "null".
- **StockAdder.Trim:** white space is the ECMAScript white-space and
  line-terminator set listed in `IsJsWhiteSpace`. Unicode category Zs is
  reduced to its current members.
