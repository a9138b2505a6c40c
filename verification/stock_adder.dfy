/** The add-a-stock wizard of the web client: a five-step state machine
    that searches for symbols, offers the results as options, and submits
    the symbol of the chosen option. The replies of the stock service
    arrive as separate events. */
module StockAdder {
  import opened Wrappers
  import opened SharedModels

  datatype Step = Initial | TextInput | OptionSelection | Complete | Failed

  const InitialTitle: string := "Please select one copmany stock to start tracking"
  const NoStocksTitle: string := "Sorry, no stocks were found that were similar to your search."

  /** How a template literal renders a string field: a null shows as "null". */
  function Rendered(s: Option<string>): string {
    if s.Some? then s.value else "null"
  }

  /** The option text `${symbol} (${description})` built for a search result. */
  function OptionLabel(item: SearchResultItem): string {
    Rendered(item.symbol) + " (" + Rendered(item.description) + ")"
  }

  /** The options built for a list of results, one per result, in order. */
  function OptionLabels(results: seq<SearchResultItem>): (labels: seq<string>)
    ensures |labels| == |results|
    ensures forall i :: 0 <= i < |results| ==> labels[i] == OptionLabel(results[i])
  {
    seq(|results|, i requires 0 <= i < |results| => OptionLabel(results[i]))
  }

  /** The characters String.prototype.trim removes: ECMAScript white space
      and line terminators. */
  predicate IsJsWhiteSpace(c: char) {
    || '\t' <= c <= '\r'
    || c == ' ' || c == '\U{A0}' || c == '\U{1680}'
    || '\U{2000}' <= c <= '\U{200A}'
    || c == '\U{2028}' || c == '\U{2029}' || c == '\U{202F}' || c == '\U{205F}' || c == '\U{3000}' || c == '\U{FEFF}'
  }

  /** `s.split(' ')[0]`: everything before the first space. */
  function FirstToken(s: string): (token: string)
    ensures token <= s && ' ' !in token
    ensures |token| < |s| ==> s[|token|] == ' '
  {
    if s == [] || s[0] == ' ' then [] else [s[0]] + FirstToken(s[1..])
  }

  /** Leading white space removed: the longest suffix not starting with it. */
  function TrimStart(s: string): (r: string)
    ensures |r| <= |s| && r == s[|s| - |r|..]
    ensures r == [] || !IsJsWhiteSpace(r[0])
    ensures forall i :: 0 <= i < |s| - |r| ==> IsJsWhiteSpace(s[i])
  {
    if s != [] && IsJsWhiteSpace(s[0]) then
      var r := TrimStart(s[1..]);
      assert forall i :: 1 <= i < |s| - |r| ==> s[i] == s[1..][i - 1];
      r
    else s
  }

  /** Trailing white space removed: the longest prefix not ending with it. */
  function TrimEnd(s: string): (r: string)
    ensures |r| <= |s| && r == s[..|r|]
    ensures r == [] || !IsJsWhiteSpace(r[|r| - 1])
    ensures forall i :: |r| <= i < |s| ==> IsJsWhiteSpace(s[i])
  {
    if s != [] && IsJsWhiteSpace(s[|s| - 1]) then
      var r := TrimEnd(s[..|s| - 1]);
      assert forall i :: |r| <= i < |s| - 1 ==> s[i] == s[..|s| - 1][i];
      r
    else s
  }

  /** `r` is `s[a..b]`, and everything of `s` outside that slice is white space. */
  predicate IsInnerSliceAt(r: string, s: string, a: int, b: int) {
    && 0 <= a <= b <= |s| && r == s[a..b]
    && forall i :: 0 <= i < |s| && (i < a || b <= i) ==> IsJsWhiteSpace(s[i])
  }

  /** `r` is a slice of `s` with nothing but white space before and after it. */
  ghost predicate IsInnerSlice(r: string, s: string) {
    exists a, b :: IsInnerSliceAt(r, s, a, b)
  }

  /** String.prototype.trim: empty exactly when `s` is all white space, and
      otherwise neither starting nor ending with white space. */
  function Trim(s: string): (r: string)
    ensures r == [] <==> forall i :: 0 <= i < |s| ==> IsJsWhiteSpace(s[i])
    ensures r != [] ==> !IsJsWhiteSpace(r[0]) && !IsJsWhiteSpace(r[|r| - 1])
  {
    var t := TrimStart(s);
    var r := TrimEnd(t);
    if r == [] then r
    else
      assert r[0] == t[0] == s[|s| - |t|];
      r
  }

  /** What submitOption sends: the trimmed first space-separated token of
      the chosen option, or nothing when no option is chosen or that token
      is empty. */
  function SubmittedSymbol(chosen: Option<string>): (symbol: Option<string>)
    ensures symbol.None? <==>
      chosen.None? || forall i :: 0 <= i < |FirstToken(chosen.value)| ==> IsJsWhiteSpace(FirstToken(chosen.value)[i])
    ensures symbol.Some? ==>
      && symbol.value != [] && ' ' !in symbol.value
      && !IsJsWhiteSpace(symbol.value[0])
      && !IsJsWhiteSpace(symbol.value[|symbol.value| - 1])
  {
    if chosen.None? then None
    else
      var token := Trim(FirstToken(chosen.value));
      if token == "" then None else Some(token)
  }

  /** What trim returns is `s` itself with its leading and trailing white
      space cut off. */
  lemma TrimIsInnerSlice(s: string)
    ensures IsInnerSlice(Trim(s), s)
  {
    var t := TrimStart(s);
    var a := |s| - |t|;
    TrimEndIsInnerSlice(t);
    assert IsInnerSliceAt(Trim(s), s, a, a + |Trim(s)|) by {
      assert Trim(s) == TrimEnd(t) && t == s[a..];
      assert forall i :: a <= i < |s| ==> s[i] == t[i - a];
    }
  }

  /** Trailing white space cut off leaves a prefix followed by white space only. */
  lemma TrimEndIsInnerSlice(t: string)
    ensures IsInnerSliceAt(TrimEnd(t), t, 0, |TrimEnd(t)|)
  {
  }

  /** The symbol sent is the first token of the chosen option, trimmed. */
  lemma SubmittedSymbolIsTrimmedToken(chosen: Option<string>)
    requires SubmittedSymbol(chosen).Some?
    ensures chosen.Some? && IsInnerSlice(SubmittedSymbol(chosen).value, FirstToken(chosen.value))
  {
    TrimIsInnerSlice(FirstToken(chosen.value));
  }

  lemma TrimKeepsClean(s: string)
    requires forall i :: 0 <= i < |s| ==> !IsJsWhiteSpace(s[i])
    ensures Trim(s) == s
  {
    assert TrimStart(s) == s;
  }

  lemma {:induction false} FirstTokenOfSpaced(a: string, b: string)
    requires ' ' !in a
    ensures FirstToken(a + " " + b) == a
  {
    if a != [] {
      assert (a + " " + b)[1..] == a[1..] + " " + b;
      FirstTokenOfSpaced(a[1..], b);
    }
  }

  lemma LabelSplits(item: SearchResultItem)
    ensures OptionLabel(item) == Rendered(item.symbol) + " " + ("(" + Rendered(item.description) + ")")
  {
    var a, d := Rendered(item.symbol), Rendered(item.description);
    assert " (" == " " + "(";
    calc {
      OptionLabel(item);
      a + " (" + d + ")";
      a + " " + ("(" + d + ")");
    }
  }

  /** Round trip: the symbol an option was built from is what submitting that
      option sends, provided the symbol has no white space in it; an empty
      symbol sends nothing. */
  lemma OptionLabelRoundTrip(item: SearchResultItem)
    requires forall i :: 0 <= i < |Rendered(item.symbol)| ==> !IsJsWhiteSpace(Rendered(item.symbol)[i])
    ensures SubmittedSymbol(Some(OptionLabel(item))) ==
      if Rendered(item.symbol) == "" then None else Some(Rendered(item.symbol))
  {
    var symbol := Rendered(item.symbol);
    var rest := "(" + Rendered(item.description) + ")";
    LabelSplits(item);
    FirstTokenOfSpaced(symbol, rest);
    assert FirstToken(OptionLabel(item)) == symbol;
    TrimKeepsClean(symbol);
  }

  /** A result without a symbol still yields an option, and choosing it
      submits the text "null". */
  lemma NullSymbolSubmitsNull(item: SearchResultItem)
    requires item.symbol.None?
    ensures SubmittedSymbol(Some(OptionLabel(item))) == Some("null")
  {
    OptionLabelRoundTrip(item);
  }

  /** Sending one more request keeps the replies within the requests. */
  lemma SendingKeepsRequestsBalanced(emitted: seq<string>, pending: multiset<string>, requested: seq<string>, symbol: string)
    requires multiset(emitted) + pending <= multiset(requested)
    ensures multiset(emitted) + (pending + multiset{symbol}) <= multiset(requested + [symbol])
  {
    assert multiset(requested + [symbol]) == multiset(requested) + multiset{symbol};
  }

  class StockAdderComponent {
    var currentStep: Step
    var enteredText: string
    var options: seq<string>
    var stocksResultsTitle: string
    var chosenOption: Option<string>
    /** Every symbol emitted through `itemAdded`, oldest first. */
    var emitted: seq<string>
    /** Every symbol submitOption has sent to the stock service, oldest
        first: the values its reply callbacks have captured. */
    ghost var requested: seq<string>
    /** The symbols of the add requests whose reply has not arrived yet, one
        occurrence per request. */
    ghost var pending: multiset<string>

    /** Each request sent gets at most one reply: the symbols emitted and the
        requests still pending together fit within the requests sent. In
        particular only a symbol that was sent is ever emitted. */
    ghost predicate AnswersEachRequestOnce()
      reads this
    {
      multiset(emitted) + pending <= multiset(requested)
    }

    constructor ()
      ensures currentStep == Initial && enteredText == "" && options == []
      ensures stocksResultsTitle == InitialTitle && chosenOption == None && emitted == []
      ensures requested == [] && pending == multiset{} && AnswersEachRequestOnce()
    {
      requested := [];
      pending := multiset{};
      currentStep := Initial;
      enteredText := "";
      options := [];
      stocksResultsTitle := InitialTitle;
      chosenOption := None;
      emitted := [];
    }

    /** startProcess: on to text input, nothing else changes. */
    method StartProcess()
      modifies this
      ensures currentStep == TextInput
      ensures enteredText == old(enteredText) && options == old(options) && stocksResultsTitle == old(stocksResultsTitle)
      ensures chosenOption == old(chosenOption) && emitted == old(emitted)
      ensures requested == old(requested) && pending == old(pending)
    {
      currentStep := TextInput;
    }

    /** searchText: the query sent to the stock service is the entered text;
        nothing changes until the reply arrives. */
    method SearchText() returns (query: string)
      ensures query == enteredText
    {
      query := enteredText;
    }

    /** The search reply with results: one option per result is appended, in
        order, after the options already there; an empty reply changes the
        title instead. Either way the wizard moves to option selection. */
    method OnSearchResults(results: seq<SearchResultItem>)
      modifies this
      ensures options == old(options) + OptionLabels(results)
      ensures stocksResultsTitle == if |results| > 0 then old(stocksResultsTitle) else NoStocksTitle
      ensures currentStep == OptionSelection
      ensures enteredText == old(enteredText) && chosenOption == old(chosenOption) && emitted == old(emitted)
      ensures requested == old(requested) && pending == old(pending)
    {
      if |results| > 0 {
        var i := 0;
        while i < |results|
          invariant 0 <= i <= |results|
          invariant options == old(options) + OptionLabels(results)[..i]
          invariant stocksResultsTitle == old(stocksResultsTitle)
          invariant enteredText == old(enteredText) && chosenOption == old(chosenOption) && emitted == old(emitted)
          invariant requested == old(requested) && pending == old(pending)
        {
          options := options + [OptionLabel(results[i])];
          i := i + 1;
        }
      } else {
        stocksResultsTitle := NoStocksTitle;
      }
      currentStep := OptionSelection;
    }

    /** The search reply failed: it is only logged. */
    method OnSearchError()
      ensures unchanged(this)
    {
    }

    /** selectedOption: the chosen option is remembered. */
    method SelectedOption(option: string)
      modifies this
      ensures chosenOption == Some(option)
      ensures currentStep == old(currentStep) && enteredText == old(enteredText) && options == old(options)
      ensures stocksResultsTitle == old(stocksResultsTitle) && emitted == old(emitted)
      ensures requested == old(requested) && pending == old(pending)
    {
      chosenOption := Some(option);
    }

    /** submitOption: the symbol to add, or nothing (no request is made) when
        the chosen option yields no symbol. A symbol sent is recorded as
        requested and awaits its reply; no other state changes until the reply. */
    method SubmitOption() returns (request: Option<string>)
      modifies this
      ensures request == SubmittedSymbol(chosenOption)
      ensures chosenOption.None? ==> request.None?
      ensures requested == old(requested) + if request.Some? then [request.value] else []
      ensures pending == old(pending) + if request.Some? then multiset{request.value} else multiset{}
      ensures old(AnswersEachRequestOnce()) ==> AnswersEachRequestOnce()
      ensures currentStep == old(currentStep) && enteredText == old(enteredText) && options == old(options)
      ensures stocksResultsTitle == old(stocksResultsTitle) && chosenOption == old(chosenOption) && emitted == old(emitted)
    {
      if chosenOption.None? {
        return None;
      }
      var stockSymbol := Trim(FirstToken(chosenOption.value));
      if stockSymbol == "" {
        return None;
      }
      request := Some(stockSymbol);
      RecordRequest(stockSymbol);
    }

    /** The bookkeeping of a request sent for `symbol`: it is recorded as
        requested and awaits its reply. */
    ghost method RecordRequest(symbol: string)
      modifies this
      ensures requested == old(requested) + [symbol]
      ensures pending == old(pending) + multiset{symbol}
      ensures old(AnswersEachRequestOnce()) ==> AnswersEachRequestOnce()
      ensures currentStep == old(currentStep) && enteredText == old(enteredText) && options == old(options)
      ensures stocksResultsTitle == old(stocksResultsTitle) && chosenOption == old(chosenOption) && emitted == old(emitted)
    {
      if AnswersEachRequestOnce() {
        SendingKeepsRequestsBalanced(emitted, pending, requested, symbol);
      }
      requested := requested + [symbol];
      pending := pending + multiset{symbol};
    }

    /** The add reply succeeded: the wizard completes and emits the symbol
        that the request being answered sent; that request is no longer
        pending. */
    method OnAddSucceeded(stockSymbol: string)
      requires stockSymbol in pending
      modifies this
      ensures currentStep == Complete && emitted == old(emitted) + [stockSymbol]
      ensures requested == old(requested) && pending == old(pending) - multiset{stockSymbol}
      ensures old(AnswersEachRequestOnce()) ==> AnswersEachRequestOnce()
      ensures enteredText == old(enteredText) && options == old(options)
      ensures stocksResultsTitle == old(stocksResultsTitle) && chosenOption == old(chosenOption)
    {
      currentStep := Complete;
      emitted := emitted + [stockSymbol];
      pending := pending - multiset{stockSymbol};
    }

    /** The add reply failed: the wizard shows the failure, and the request
        it answers (the one that sent `stockSymbol`) is no longer pending. */
    method OnAddFailed(ghost stockSymbol: string)
      requires stockSymbol in pending
      modifies this
      ensures currentStep == Failed
      ensures enteredText == old(enteredText) && options == old(options) && emitted == old(emitted)
      ensures requested == old(requested) && pending == old(pending) - multiset{stockSymbol}
      ensures old(AnswersEachRequestOnce()) ==> AnswersEachRequestOnce()
      ensures stocksResultsTitle == old(stocksResultsTitle) && chosenOption == old(chosenOption)
    {
      currentStep := Failed;
      pending := pending - multiset{stockSymbol};
    }

    /** reset: back to the first step with no options, no choice and no
        text; the results title is left as it is. */
    method Reset()
      modifies this
      ensures currentStep == Initial && options == [] && chosenOption == None && enteredText == ""
      ensures stocksResultsTitle == old(stocksResultsTitle) && emitted == old(emitted)
      ensures requested == old(requested) && pending == old(pending)
    {
      currentStep := Initial;
      options := [];
      chosenOption := None;
      enteredText := "";
    }
  }
}
