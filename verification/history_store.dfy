/** The document-store container that holds one history document per symbol.
    It is a collaborator of the worker; only the behaviour the worker relies
    on is modelled: a paged listing in a fixed order, which always succeeds,
    and point reads, creates and replaces, each of which may fail. */
module HistoryStore {
  import opened Wrappers
  import opened SharedModels

  /** The container's contents: documents by id, and the order in which a
      full listing returns them. */
  datatype Collection = Collection(docs: map<string, HistoryRecord>, order: seq<string>)
  {
    /** Every id is listed exactly once, and a document is stored under its own id. */
    ghost predicate Valid() {
      && Distinct(order)
      && (forall id :: id in docs <==> id in order)
      && (forall id :: id in docs ==> docs[id].id == id)
    }

    /** Every document, in listing order. */
    function Listing(): seq<HistoryRecord>
      requires Valid()
    {
      seq(|order|, i requires 0 <= i < |order| => docs[order[i]])
    }

    /** CreateItemAsync: refused when the id is already stored (a conflict)
        or when the store faults. */
    function Created(item: HistoryRecord, fault: bool): (r: Collection)
      ensures Valid() ==> r.Valid()
      ensures r.docs.Keys == if item.id in docs || fault then docs.Keys else docs.Keys + {item.id}
      ensures forall id :: id in docs && id != item.id ==> r.docs[id] == docs[id]
      ensures item.id !in docs && !fault ==> r.docs[item.id] == item && r.order == order + [item.id]
      ensures item.id in docs || fault ==> r == this
    {
      if item.id in docs || fault then this
      else Collection(docs[item.id := item], order + [item.id])
    }

    /** ReadItemAsync: missing when the id is not stored or the store faults. */
    function Read(id: string, fault: bool): (r: Option<HistoryRecord>)
      ensures r.Some? <==> id in docs && !fault
      ensures r.Some? ==> r.value == docs[id]
    {
      if id in docs && !fault then Some(docs[id]) else None
    }

    /** ReplaceItemAsync: a whole-document overwrite, refused when the id is
        not stored or the store faults. The listing order never changes. */
    function Replaced(item: HistoryRecord, fault: bool): (r: Collection)
      ensures Valid() ==> r.Valid()
      ensures r.docs.Keys == docs.Keys && r.order == order
      ensures forall id :: id in docs && id != item.id ==> r.docs[id] == docs[id]
      ensures item.id in docs && !fault ==> r.docs[item.id] == item
      ensures item.id !in docs || fault ==> r == this
    {
      if item.id !in docs || fault then this
      else this.(docs := docs[item.id := item])
    }
  }

  /** The listing's ids are the listing order itself, so they are distinct. */
  lemma ListingIds(c: Collection)
    requires c.Valid()
    ensures IdsOf(c.Listing()) == c.order
    ensures Distinct(IdsOf(c.Listing()))
  {
  }

  /** All pages of a listing, concatenated in page order. */
  function Flatten(pages: seq<seq<HistoryRecord>>): seq<HistoryRecord> {
    if pages == [] then [] else pages[0] + Flatten(pages[1..])
  }

  lemma {:induction false} FlattenSnoc(pages: seq<seq<HistoryRecord>>, page: seq<HistoryRecord>)
    ensures Flatten(pages + [page]) == Flatten(pages) + page
  {
    if pages == [] {
      assert pages + [page] == [page];
      assert [page][1..] == [];
    } else {
      assert (pages + [page])[1..] == pages[1..] + [page];
      FlattenSnoc(pages[1..], page);
    }
  }

  /** A listing cut into pages of at most `size` documents, as the query
      feed iterator hands it out. */
  function Paged(s: seq<HistoryRecord>, size: nat): (pages: seq<seq<HistoryRecord>>)
    requires size > 0
    ensures Flatten(pages) == s
    ensures forall i :: 0 <= i < |pages| ==> 0 < |pages[i]| <= size
    decreases |s|
  {
    if |s| <= size then
      if s == [] then [] else [s]
    else
      var rest := Paged(s[size..], size);
      assert ([s[..size]] + rest)[1..] == rest;
      assert s[..size] + s[size..] == s;
      [s[..size]] + rest
  }

  /** FeedIterator: hands out a fixed sequence of pages one at a time. */
  class FeedIterator {
    const pages: seq<seq<HistoryRecord>>
    var next: nat

    ghost predicate Valid()
      reads this
    {
      next <= |pages|
    }

    constructor (pages: seq<seq<HistoryRecord>>)
      ensures this.pages == pages && next == 0 && Valid()
    {
      this.pages := pages;
      next := 0;
    }

    /** HasMoreResults */
    predicate HasMoreResults()
      reads this
    {
      next < |pages|
    }

    /** ReadNextAsync: the next page. */
    method ReadNext() returns (page: seq<HistoryRecord>)
      requires Valid() && HasMoreResults()
      modifies this
      ensures Valid() && next == old(next) + 1
      ensures page == pages[old(next)]
    {
      page := pages[next];
      next := next + 1;
    }
  }

  /** The container object. `maxItemCount` is the page size the store uses. */
  class Container {
    const maxItemCount: nat
    var docs: map<string, HistoryRecord>
    var order: seq<string>

    function Contents(): Collection
      reads this
    {
      Collection(docs, order)
    }

    ghost predicate Valid()
      reads this
    {
      maxItemCount > 0 && Contents().Valid()
    }

    function Listing(): seq<HistoryRecord>
      reads this
      requires Valid()
    {
      Contents().Listing()
    }

    constructor (maxItemCount: nat)
      requires maxItemCount > 0
      ensures Valid() && this.maxItemCount == maxItemCount
      ensures Contents() == Collection(map[], [])
    {
      this.maxItemCount := maxItemCount;
      docs := map[];
      order := [];
    }

    /** GetItemQueryIterator: a fresh feed over the whole listing. */
    method GetItemQueryIterator() returns (feed: FeedIterator)
      requires Valid()
      ensures fresh(feed) && feed.Valid() && feed.next == 0
      ensures Flatten(feed.pages) == Listing()
    {
      feed := new FeedIterator(Paged(Listing(), maxItemCount));
    }

    /** CreateItemAsync; `created` is false where the source would throw. */
    method CreateItem(item: HistoryRecord, fault: bool) returns (created: bool)
      requires Valid()
      modifies this
      ensures Valid()
      ensures created == (item.id !in old(docs) && !fault)
      ensures Contents() == old(Contents()).Created(item, fault)
    {
      created := item.id !in docs && !fault;
      if created {
        docs := docs[item.id := item];
        order := order + [item.id];
      }
    }

    /** ReadItemAsync; None where the source would throw. */
    method ReadItem(id: string, fault: bool) returns (item: Option<HistoryRecord>)
      requires Valid()
      ensures item == Contents().Read(id, fault)
    {
      if id in docs && !fault {
        item := Some(docs[id]);
      } else {
        item := None;
      }
    }

    /** ReplaceItemAsync; `replaced` is false where the source would throw. */
    method ReplaceItem(item: HistoryRecord, fault: bool) returns (replaced: bool)
      requires Valid()
      modifies this
      ensures Valid()
      ensures replaced == (item.id in old(docs) && !fault)
      ensures Contents() == old(Contents()).Replaced(item, fault)
    {
      replaced := item.id in docs && !fault;
      if replaced {
        docs := docs[item.id := item];
      }
    }
  }
}
