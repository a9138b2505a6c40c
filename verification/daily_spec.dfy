/** The daily quote-history pass of the API worker, stated on values: what
    the store holds after the pass and what the pass returns, given the
    outcome of every call into the quote service and the store. */
module DailySpec {
  import opened Wrappers
  import opened SharedModels
  import opened HistoryStore

  /** What the pass learns from outside the model. `fetch` is the quote
      service (None where GetFinnhubQuoteAsync throws); `readFails` and
      `writeFails` say for which symbols the store's point read, or its
      create/replace, throws. */
  datatype PassEnvironment = PassEnvironment(
    today: Day,
    fetch: string -> Option<Quote>,
    readFails: string -> bool,
    writeFails: string -> bool)

  /** GetDailyQueries either returns its count or ends with the exception of
      the quote fetch for `symbol`. */
  datatype PassOutcome = Counted(count: nat) | FetchFailed(symbol: string)

  datatype PassResult = PassResult(store: Collection, outcome: PassOutcome)

  /** `Where(x => x.LastUpdated < today).ToList()`: the stale records, in order. */
  function StaleRecords(histories: seq<HistoryRecord>, today: Day): (stale: seq<HistoryRecord>)
    ensures |stale| <= |histories|
    ensures forall h :: h in stale <==> h in histories && h.IsStaleOn(today)
  {
    if histories == [] then []
    else if histories[0].IsStaleOn(today) then [histories[0]] + StaleRecords(histories[1..], today)
    else StaleRecords(histories[1..], today)
  }

  /** The filter keeps the listing order and every stale record as often as
      it occurs, and drops everything else. */
  lemma {:induction false} StaleRecordsIsOrderedFilter(histories: seq<HistoryRecord>, today: Day)
    ensures IsSubsequence(StaleRecords(histories, today), histories)
    ensures forall h ::
              multiset(StaleRecords(histories, today))[h] == if h.IsStaleOn(today) then multiset(histories)[h] else 0
    decreases |histories|
  {
    if histories != [] {
      var rest := StaleRecords(histories[1..], today);
      StaleRecordsIsOrderedFilter(histories[1..], today);
      assert histories == [histories[0]] + histories[1..];
      if histories[0].IsStaleOn(today) {
        assert ([histories[0]] + rest)[1..] == rest;
      }
    }
  }

  /** Filtering keeps ids distinct. */
  lemma {:induction false} StaleIdsDistinct(histories: seq<HistoryRecord>, today: Day)
    requires Distinct(IdsOf(histories))
    ensures Distinct(IdsOf(StaleRecords(histories, today)))
  {
    if histories != [] {
      var rest := histories[1..];
      assert IdsOf(rest) == IdsOf(histories)[1..];
      StaleIdsDistinct(rest, today);
      if histories[0].IsStaleOn(today) {
        var tail := StaleRecords(rest, today);
        var s := [histories[0]] + tail;
        forall i, j | 0 <= i < j < |s| ensures IdsOf(s)[i] != IdsOf(s)[j] {
          if i == 0 {
            assert s[j] == tail[j - 1] && s[j] in rest;
            var m :| 0 <= m < |rest| && rest[m] == s[j];
            assert IdsOf(histories)[0] != IdsOf(histories)[m + 1];
          } else {
            assert IdsOf(s)[i] == IdsOf(tail)[i - 1] && IdsOf(s)[j] == IdsOf(tail)[j - 1];
          }
        }
      }
    }
  }

  /** Every stale id is an id of the listing. */
  lemma StaleIdsListed(histories: seq<HistoryRecord>, today: Day)
    ensures forall id :: id in IdsOf(StaleRecords(histories, today)) ==> id in IdsOf(histories)
  {
    var stale := StaleRecords(histories, today);
    forall id | id in IdsOf(stale) ensures id in IdsOf(histories) {
      var j :| 0 <= j < |stale| && IdsOf(stale)[j] == id;
      assert stale[j] in histories;
      var m :| 0 <= m < |histories| && histories[m] == stale[j];
      assert IdsOf(histories)[m] == id;
    }
  }

  /** The index of the first occurrence of `id`, or -1. */
  function FirstIndexOf(ids: seq<string>, id: string): (k: int)
    ensures -1 <= k < |ids|
    ensures k == -1 <==> id !in ids
    ensures 0 <= k ==> ids[k] == id && id !in ids[..k]
  {
    if ids == [] then -1
    else if ids[0] == id then 0
    else
      var k := FirstIndexOf(ids[1..], id);
      if k == -1 then -1
      else
        assert ids[..k + 1] == [ids[0]] + ids[1..][..k];
        k + 1
  }

  /** `FirstOrDefault(x => x.id == symbol)` over the snapshot. */
  function FirstWithId(histories: seq<HistoryRecord>, symbol: string): (found: Option<HistoryRecord>)
    ensures found.None? <==> symbol !in IdsOf(histories)
    ensures found.Some? ==> found.value in histories && found.value.id == symbol
    ensures found.Some? ==>
      exists k :: 0 <= k < |histories| && histories[k] == found.value && symbol !in IdsOf(histories[..k])
  {
    var k := FirstIndexOf(IdsOf(histories), symbol);
    if k < 0 then None
    else
      assert IdsOf(histories[..k]) == IdsOf(histories)[..k];
      Some(histories[k])
  }

  /** The store after UpsertQuoteHistory(symbol, quote, ...), given the
      snapshot record FirstOrDefault found. With no record, a new one seeded
      with the quote is created. Otherwise the store is read first (a failed
      read ends the upsert), and the snapshot record, not the record just
      read, gets the quote appended and replaces the stored one. Store errors
      are swallowed: a refused create or replace leaves the store as it was. */
  function UpsertWith(store: Collection, found: Option<HistoryRecord>, symbol: string, quote: Quote, env: PassEnvironment): Collection
  {
    match found
    case None =>
      store.Created(SeededRecord(symbol, quote, env.today), env.writeFails(symbol))
    case Some(existing) =>
      if store.Read(symbol, env.readFails(symbol)).None? then store
      else store.Replaced(existing.WithQuoteAppended(quote, env.today), env.writeFails(symbol))
  }

  function Upsert(store: Collection, snapshot: seq<HistoryRecord>, symbol: string, quote: Quote, env: PassEnvironment): Collection {
    UpsertWith(store, FirstWithId(snapshot, symbol), symbol, quote, env)
  }

  /** The loop of GetDailyQueries over `toUpdate`, with `count` updates
      already counted: fetch, upsert, count; a failed fetch ends the pass. */
  function RunPass(store: Collection, snapshot: seq<HistoryRecord>, toUpdate: seq<HistoryRecord>, env: PassEnvironment, count: nat): PassResult
    decreases |toUpdate|
  {
    if toUpdate == [] then PassResult(store, Counted(count))
    else
      match env.fetch(toUpdate[0].id)
      case None => PassResult(store, FetchFailed(toUpdate[0].id))
      case Some(quote) =>
        RunPass(Upsert(store, snapshot, toUpdate[0].id, quote, env), snapshot, toUpdate[1..], env, count + 1)
  }

  /** One step of the pass, started at any position `i` of `toUpdate`. */
  lemma RunPassUnfold(store: Collection, snapshot: seq<HistoryRecord>, toUpdate: seq<HistoryRecord>, env: PassEnvironment, i: nat, count: nat)
    requires i < |toUpdate|
    ensures RunPass(store, snapshot, toUpdate[i..], env, count) ==
      match env.fetch(toUpdate[i].id)
      case None => PassResult(store, FetchFailed(toUpdate[i].id))
      case Some(quote) => RunPass(Upsert(store, snapshot, toUpdate[i].id, quote, env), snapshot, toUpdate[i + 1..], env, count + 1)
  {
    assert toUpdate[i..][0] == toUpdate[i];
    assert toUpdate[i..][1..] == toUpdate[i + 1..];
  }

  /** A successful fetch at position `i`, with `i` updates counted so far,
      moves the pass on to position `next`. */
  lemma RunPassStep(store: Collection, snapshot: seq<HistoryRecord>, toUpdate: seq<HistoryRecord>, env: PassEnvironment,
                    i: nat, next: nat, symbol: string, quote: Quote)
    requires next == i + 1 <= |toUpdate| && toUpdate[i].id == symbol && env.fetch(symbol) == Some(quote)
    ensures RunPass(store, snapshot, toUpdate[i..], env, i) ==
      RunPass(Upsert(store, snapshot, symbol, quote, env), snapshot, toUpdate[next..], env, next)
  {
    RunPassUnfold(store, snapshot, toUpdate, env, i, i);
  }

  /** A failed fetch at position `i` ends the pass with the store as it is. */
  lemma RunPassStop(store: Collection, snapshot: seq<HistoryRecord>, toUpdate: seq<HistoryRecord>, env: PassEnvironment,
                    i: nat, count: nat)
    requires i < |toUpdate| && env.fetch(toUpdate[i].id).None?
    ensures RunPass(store, snapshot, toUpdate[i..], env, count) == PassResult(store, FetchFailed(toUpdate[i].id))
  {
    RunPassUnfold(store, snapshot, toUpdate, env, i, count);
  }

  /** GetDailyQueries: one listing of the store is the snapshot; its stale
      records are updated in listing order. */
  function DailyQueries(store: Collection, env: PassEnvironment): PassResult
    requires store.Valid()
  {
    var snapshot := store.Listing();
    RunPass(store, snapshot, StaleRecords(snapshot, env.today), env, 0)
  }
}
