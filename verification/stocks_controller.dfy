/** The HTTP status decisions of the API's stocks controller. Each action
    turns what the worker did (returned a value, returned null, or threw)
    into 200, 400, 404 or 500; the worker call is a parameter. */
module StocksController {
  import opened Wrappers
  import opened SharedModels
  import Worker

  /** What an action returns: a 200 with its body, or an error status with
      its message. */
  datatype ActionResult<+T> =
    | Ok(body: T)
    | BadRequest(message: string)
    | NotFound(message: string)
    | ServerError(message: string)
  {
    function StatusCode(): int {
      match this
      case Ok(_) => 200
      case BadRequest(_) => 400
      case NotFound(_) => 404
      case ServerError(_) => 500
    }
  }

  /** A worker call whose result is never compared with null: it completed
      with a value or it threw. */
  datatype Completion<+T> = Completed(value: T) | Faulted

  /** string.IsNullOrEmpty */
  predicate IsNullOrEmpty(s: Option<string>) {
    s.None? || s.value == ""
  }

  /** GET todays-quote/{symbol}: 400 for a missing symbol, 404 when the
      quote is null or its current price is not positive, 500 when the
      quote fetch throws, 200 with the quote otherwise. */
  function GetQuote(symbol: Option<string>, getQuote: string -> Outcome<Quote>): (r: ActionResult<Quote>)
    ensures r.StatusCode() == 400 <==> IsNullOrEmpty(symbol)
    ensures r.StatusCode() == 500 <==> !IsNullOrEmpty(symbol) && getQuote(symbol.value).Threw?
    ensures r.StatusCode() == 404 <==>
      !IsNullOrEmpty(symbol) &&
      (getQuote(symbol.value).Null? || (getQuote(symbol.value).Value? && getQuote(symbol.value).value.currentPrice <= 0))
    ensures r.Ok? ==> symbol.Some? && getQuote(symbol.value) == Value(r.body) && r.body.currentPrice > 0
  {
    if IsNullOrEmpty(symbol) then BadRequest("Symbol cannot be empty.")
    else
      match getQuote(symbol.value)
      case Threw => ServerError("An error occurred while retrieving the stock quote.")
      case Null => NotFound("Stock symbol '" + symbol.value + "' not found.")
      case Value(quote) =>
        if quote.currentPrice <= 0 then NotFound("Stock symbol '" + symbol.value + "' not found.")
        else Ok(quote)
  }

  /** An empty symbol is refused before the worker is asked: the answer does
      not depend on the quote service at all. */
  lemma GetQuoteSkipsWorkerOnEmptySymbol(symbol: Option<string>, f: string -> Outcome<Quote>, g: string -> Outcome<Quote>)
    requires IsNullOrEmpty(symbol)
    ensures GetQuote(symbol, f) == GetQuote(symbol, g) == BadRequest("Symbol cannot be empty.")
  {
  }

  /** GET tracked-stocks: 404 only for a null list, 500 when listing throws,
      200 with the list otherwise. */
  function GetStocks(symbols: Outcome<seq<string>>): (r: ActionResult<seq<string>>)
    ensures r.StatusCode() == 404 <==> symbols.Null?
    ensures r.StatusCode() == 500 <==> symbols.Threw?
    ensures r.Ok? <==> symbols.Value?
    ensures r.Ok? ==> r.body == symbols.value
  {
    match symbols
    case Threw => ServerError("An error occurred while retrieving tracked stocks.")
    case Null => NotFound("No Stocks are currently tracked.")
    case Value(list) => Ok(list)
  }

  /** No tracked stock is still a success, with an empty list. */
  lemma NoTrackedStocksIsOk()
    ensures GetStocks(Value([])).StatusCode() == 200
  {
  }

  /** GET stock-history/{symbol}: 400 for a missing symbol, 404 for a null
      history, 500 when the worker throws, 200 with the history otherwise. */
  function GetStockHistory(symbol: Option<string>, getHistory: string -> Outcome<HistoryRecord>): (r: ActionResult<HistoryRecord>)
    ensures r.StatusCode() == 400 <==> IsNullOrEmpty(symbol)
    ensures r.StatusCode() == 404 <==> !IsNullOrEmpty(symbol) && getHistory(symbol.value).Null?
    ensures r.StatusCode() == 500 <==> !IsNullOrEmpty(symbol) && getHistory(symbol.value).Threw?
    ensures r.Ok? ==> symbol.Some? && getHistory(symbol.value) == Value(r.body)
  {
    if IsNullOrEmpty(symbol) then BadRequest("Symbol cannot be empty.")
    else
      match getHistory(symbol.value)
      case Threw => ServerError("An error occurred while retrieving the stock quote.")
      case Null => NotFound("Stock symbol '" + symbol.value + "' not found.")
      case Value(history) => Ok(history)
  }

  /** An empty symbol is refused before the worker is asked. */
  lemma GetStockHistorySkipsWorkerOnEmptySymbol(symbol: Option<string>, f: string -> Outcome<HistoryRecord>, g: string -> Outcome<HistoryRecord>)
    requires IsNullOrEmpty(symbol)
    ensures GetStockHistory(symbol, f) == GetStockHistory(symbol, g)
  {
  }

  /** POST daily-query-update: 200 carrying the number of updated stocks
      when the pass completes, 500 when it throws. */
  function DailyUpdate(pass: Completion<int>): (r: ActionResult<int>)
    ensures r.Ok? <==> pass.Completed?
    ensures r.Ok? ==> r.body == pass.value
    ensures r.StatusCode() == 500 <==> pass.Faulted?
  {
    match pass
    case Faulted => ServerError("An error occurred while processing the request.")
    case Completed(count) => Ok(count)
  }

  /** GET search-stocks/{query}: 404 for a null lookup, 500 when the lookup
      throws, 200 with the symbol otherwise. The 404 message interpolates the
      null lookup, so its quoted symbol is always empty. */
  function SearchStocks(lookup: Outcome<string>): (r: ActionResult<string>)
    ensures r.StatusCode() == 404 <==> lookup.Null?
    ensures r.StatusCode() == 500 <==> lookup.Threw?
    ensures r.Ok? <==> lookup.Value?
    ensures r.Ok? ==> r.body == lookup.value
    ensures r.NotFound? ==> r.message == "Stock symbol '' not found."
  {
    match lookup
    case Threw => ServerError("An error occurred while adding the new symbol.")
    case Null => NotFound("Stock symbol '' not found.")
    case Value(symbol) => Ok(symbol)
  }

  /** The search endpoint over the lookup: 500 exactly when the lookup throws
      (an uncaught exception of the call or a body that does not deserialize),
      200 exactly when the first result has a non-blank symbol, and 404 for an
      HttpRequestException, a non-success status or no usable symbol. */
  lemma SearchStocksStatus(reply: Worker.SearchReply)
    ensures SearchStocks(Worker.FinnhubLookupSymbol(reply)).StatusCode() ==
      if reply.CallThrew? || reply.MalformedBody? then 500
      else if reply.Parsed? && !Worker.IsNullOrWhiteSpace(Worker.FirstSymbol(reply.data)) then 200
      else 404
  {
    var r := Worker.FinnhubLookupSymbol(reply);
    if r.Value? {
      var i :| 0 <= i < |r.value| && !Worker.IsDotNetWhiteSpace(r.value[i]);
      assert !Worker.IsNullOrWhiteSpace(Worker.FirstSymbol(reply.data));
    }
  }

  /** POST add-new-symbol/{symbol}: 200 with a sentence naming the symbol
      the worker added (which may differ from the one submitted), 500 when
      the worker throws. */
  function AddNewSymbol(added: Completion<string>): (r: ActionResult<string>)
    ensures r.Ok? <==> added.Completed?
    ensures r.Ok? ==> r.body == "The symbol '" + added.value + "' was successfully added."
    ensures r.StatusCode() == 500 <==> added.Faulted?
  {
    match added
    case Faulted => ServerError("An error occurred while adding the new symbol.")
    case Completed(symbol) => Ok("The symbol '" + symbol + "' was successfully added.")
  }

  /** POST stop-tracking-stock/{symbol}: 200 with a sentence naming the
      requested symbol when the worker completes, 500 when it throws; the
      500 message is the one of the add action. */
  function StopTrackingStock(symbol: string, untracked: Completion<()>): (r: ActionResult<string>)
    ensures r.Ok? <==> untracked.Completed?
    ensures r.Ok? ==> r.body == "The symbol '" + symbol + "' is no longer being trackedd."
    ensures r.StatusCode() == 500 <==> untracked.Faulted?
    ensures r.ServerError? ==> r.message == "An error occurred while adding the new symbol."
  {
    match untracked
    case Faulted => ServerError("An error occurred while adding the new symbol.")
    case Completed(_) => Ok("The symbol '" + symbol + "' is no longer being trackedd.")
  }
}
