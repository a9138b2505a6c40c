/** The main page of the web client: the list of tracked symbols, a
    case-insensitive search box that filters it, and the handlers that show,
    hide and pick from the filtered list. */
module MainPage {
  import opened Wrappers

  /** String.prototype.toLowerCase on one character (ASCII letters only). */
  function LowerChar(c: char): char {
    if 'A' <= c <= 'Z' then (c as int + 32) as char else c
  }

  /** String.prototype.toLowerCase */
  function ToLower(s: string): (r: string)
    ensures |r| == |s|
    ensures forall i :: 0 <= i < |s| ==> r[i] == LowerChar(s[i])
  {
    seq(|s|, i requires 0 <= i < |s| => LowerChar(s[i]))
  }

  /** String.prototype.includes: `term` occurs somewhere in `s`. */
  predicate Includes(s: string, term: string)
    decreases |s|
  {
    term <= s || (s != [] && Includes(s[1..], term))
  }

  /** `term` occurs in `s` starting at position `i`. */
  predicate OccursAt(s: string, term: string, i: int) {
    0 <= i <= |s| - |term| && s[i..i + |term|] == term
  }

  /** `includes` holds exactly when `term` occurs at some position of `s`. */
  lemma {:induction false} IncludesIsOccurrence(s: string, term: string)
    ensures Includes(s, term) <==> exists i :: OccursAt(s, term, i)
    decreases |s|
  {
    if term <= s {
      assert OccursAt(s, term, 0);
    } else if s != [] {
      IncludesIsOccurrence(s[1..], term);
      if Includes(s[1..], term) {
        var j :| OccursAt(s[1..], term, j);
        assert s[1..][j..j + |term|] == s[j + 1..j + 1 + |term|];
        assert OccursAt(s, term, j + 1);
      }
      if exists i :: OccursAt(s, term, i) {
        var i :| OccursAt(s, term, i);
        assert s[..|term|] != term;
        assert s[1..][i - 1..i - 1 + |term|] == s[i..i + |term|];
        assert OccursAt(s[1..], term, i - 1);
      }
    }
  }

  /** The filter test of onSearchChange: the lower-cased item contains the
      lower-cased term. */
  predicate Matches(item: string, term: string) {
    Includes(ToLower(item), ToLower(term))
  }

  /** `items.filter(item => item.toLowerCase().includes(term))`: the items
      that match, in order, duplicates kept, and nothing else. */
  function MatchingItems(items: seq<string>, term: string): (r: seq<string>)
    ensures IsSubsequence(r, items)
    ensures forall x :: multiset(r)[x] == if Matches(x, term) then multiset(items)[x] else 0
    ensures forall i :: 0 <= i < |r| ==> Matches(r[i], term)
    decreases |items|
  {
    if items == [] then []
    else
      var rest := MatchingItems(items[1..], term);
      assert items == [items[0]] + items[1..];
      if Matches(items[0], term) then
        assert ([items[0]] + rest)[1..] == rest;
        [items[0]] + rest
      else rest
  }

  lemma {:induction false} EverythingIncludesEmpty(s: string)
    ensures Includes(s, "")
  {
  }

  /** An empty search term keeps every item. */
  lemma {:induction false} EmptyTermMatchesAll(items: seq<string>)
    ensures MatchingItems(items, "") == items
    decreases |items|
  {
    if items != [] {
      assert ToLower("") == "";
      EverythingIncludesEmpty(ToLower(items[0]));
      assert Matches(items[0], "");
      EmptyTermMatchesAll(items[1..]);
      assert MatchingItems(items, "") == [items[0]] + MatchingItems(items[1..], "");
    }
  }

  class MainPageComponent {
    var items: seq<string>
    var selectedItem: string
    var filteredItems: seq<string>
    var searchTerm: string
    var queries: seq<string>

    constructor ()
      ensures items == [] && selectedItem == "Test" && filteredItems == [] && searchTerm == "" && queries == []
    {
      items := [];
      selectedItem := "Test";
      filteredItems := [];
      searchTerm := "";
      queries := [];
    }

    /** The reply to the tracked-stocks request made in ngOnInit. */
    method OnStocksLoaded(stocks: seq<string>)
      modifies this
      ensures items == stocks
      ensures selectedItem == old(selectedItem) && filteredItems == old(filteredItems)
      ensures searchTerm == old(searchTerm) && queries == old(queries)
    {
      items := stocks;
    }

    /** onSearchChange: the filtered list becomes the matching items. */
    method OnSearchChange()
      modifies this
      ensures filteredItems == MatchingItems(items, searchTerm)
      ensures items == old(items) && selectedItem == old(selectedItem)
      ensures searchTerm == old(searchTerm) && queries == old(queries)
    {
      filteredItems := MatchingItems(items, searchTerm);
    }

    /** onSearchFocus: with no search term every item is offered, which is
        what filtering by the empty term gives; otherwise nothing changes. */
    method OnSearchFocus()
      modifies this
      ensures filteredItems == if old(searchTerm) == "" then items else old(filteredItems)
      ensures old(searchTerm) == "" ==> filteredItems == MatchingItems(items, searchTerm)
      ensures items == old(items) && selectedItem == old(selectedItem)
      ensures searchTerm == old(searchTerm) && queries == old(queries)
    {
      if searchTerm == "" {
        filteredItems := items;
        EmptyTermMatchesAll(items);
      }
    }

    /** What onSearchBlur does once its delay has elapsed: the drop-down and
        the search term are cleared. */
    method OnSearchBlurElapsed()
      modifies this
      ensures filteredItems == [] && searchTerm == ""
      ensures items == old(items) && selectedItem == old(selectedItem) && queries == old(queries)
    {
      filteredItems := [];
      searchTerm := "";
    }

    /** onItemSelected: the item is selected, the placeholder queries are
        shown and the drop-down closes; the search term stays. */
    method OnItemSelected(item: string)
      modifies this
      ensures selectedItem == item && queries == ["1", "2", "3"] && filteredItems == []
      ensures items == old(items) && searchTerm == old(searchTerm)
    {
      queries := ["1", "2", "3"];
      selectedItem := item;
      filteredItems := [];
    }
  }
}
