/** What the daily quote-history pass guarantees, proved about the value-level
    model in DailySpec (and so, through GetDailyQueries' postcondition, about
    the worker itself). */
module DailyProperties {
  import opened Wrappers
  import opened SharedModels
  import opened HistoryStore
  import opened DailySpec

  /** The environment lets every symbol the pass handles, that is every
      stored symbol that is stale today, be fetched, read and written. */
  ghost predicate FaultFreeFor(c: Collection, env: PassEnvironment) {
    forall id :: id in c.docs && c.docs[id].IsStaleOn(env.today) ==>
      env.fetch(id).Some? && !env.readFails(id) && !env.writeFails(id)
  }

  // ---------------------------------------------------------------- listing

  lemma IdsOfTail(s: seq<HistoryRecord>)
    requires s != []
    ensures IdsOf(s[1..]) == IdsOf(s)[1..]
  {
  }

  /** A listed record is the document stored under its id. */
  lemma ListedIsStored(c: Collection, h: HistoryRecord)
    requires c.Valid() && h in c.Listing()
    ensures h.id in c.docs && c.docs[h.id] == h
  {
    var m :| 0 <= m < |c.order| && c.Listing()[m] == h;
    assert c.docs[c.order[m]].id == c.order[m];
  }

  /** A stored document is listed. */
  lemma StoredIsListed(c: Collection, id: string)
    requires c.Valid() && id in c.docs
    ensures c.docs[id] in c.Listing()
  {
    var m :| 0 <= m < |c.order| && c.order[m] == id;
    assert c.Listing()[m] == c.docs[id];
  }

  /** With distinct ids, FirstOrDefault finds the record itself. */
  lemma FirstWithIdOfMember(records: seq<HistoryRecord>, m: nat)
    requires Distinct(IdsOf(records)) && m < |records|
    ensures FirstWithId(records, records[m].id) == Some(records[m])
  {
    var k := FirstIndexOf(IdsOf(records), records[m].id);
    assert IdsOf(records)[m] == records[m].id;
    assert k == m;
  }

  /** Every stale record the pass walks over is a snapshot record, so the
      lookup in UpsertQuoteHistory always finds it and the create branch is
      never taken by the daily pass. */
  lemma CreateBranchNeverTaken(c: Collection, today: Day, h: HistoryRecord)
    requires c.Valid() && h in StaleRecords(c.Listing(), today)
    ensures FirstWithId(c.Listing(), h.id) == Some(h)
  {
    var listing := c.Listing();
    ListingIds(c);
    var m :| 0 <= m < |listing| && listing[m] == h;
    FirstWithIdOfMember(listing, m);
  }

  /** For a snapshot record the upsert is a read followed by a replace of the
      snapshot record with the quote appended: what the read returned is
      discarded, so the stored document is overwritten with the snapshot's
      version. */
  lemma ReplaceWritesSnapshotRecord(store: Collection, snapshot: seq<HistoryRecord>, m: nat, quote: Quote, env: PassEnvironment)
    requires Distinct(IdsOf(snapshot)) && m < |snapshot|
    ensures var h := snapshot[m];
      Upsert(store, snapshot, h.id, quote, env) ==
        if h.id !in store.docs || env.readFails(h.id) then store
        else store.Replaced(h.WithQuoteAppended(quote, env.today), env.writeFails(h.id))
  {
    FirstWithIdOfMember(snapshot, m);
  }

  // ------------------------------------------------------ the pass on values

  /** Every record to update is a snapshot record (by position). */
  ghost predicate AllListed(snapshot: seq<HistoryRecord>, toUpdate: seq<HistoryRecord>) {
    forall j :: 0 <= j < |toUpdate| ==> toUpdate[j] in snapshot
  }

  /** Updating snapshot records keeps the store valid and creates nothing:
      the ids and the listing order stay as they were. */
  lemma {:induction false} RunPassKeepsShape(store: Collection, snapshot: seq<HistoryRecord>, toUpdate: seq<HistoryRecord>,
                                             env: PassEnvironment, count: nat)
    requires store.Valid() && Distinct(IdsOf(snapshot)) && AllListed(snapshot, toUpdate)
    ensures var r := RunPass(store, snapshot, toUpdate, env, count).store;
      r.Valid() && r.docs.Keys == store.docs.Keys && r.order == store.order
    decreases |toUpdate|
  {
    if toUpdate != [] {
      match env.fetch(toUpdate[0].id)
      case None =>
      case Some(quote) =>
        var m :| 0 <= m < |snapshot| && snapshot[m] == toUpdate[0];
        ReplaceWritesSnapshotRecord(store, snapshot, m, quote, env);
        var next := Upsert(store, snapshot, toUpdate[0].id, quote, env);
        assert AllListed(snapshot, toUpdate[1..]) by {
          forall j | 0 <= j < |toUpdate[1..]| ensures toUpdate[1..][j] in snapshot {
            assert toUpdate[1..][j] == toUpdate[j + 1];
          }
        }
        RunPassKeepsShape(next, snapshot, toUpdate[1..], env, count + 1);
    }
  }

  /** A document whose id is not among the records to update is never
      touched, and no document disappears. */
  lemma {:induction false} RunPassFrame(store: Collection, snapshot: seq<HistoryRecord>, toUpdate: seq<HistoryRecord>,
                                        env: PassEnvironment, count: nat)
    ensures var r := RunPass(store, snapshot, toUpdate, env, count).store;
      store.docs.Keys <= r.docs.Keys &&
      forall id :: id in store.docs && id !in IdsOf(toUpdate) ==> r.docs[id] == store.docs[id]
    decreases |toUpdate|
  {
    if toUpdate != [] {
      match env.fetch(toUpdate[0].id)
      case None =>
      case Some(quote) =>
        var next := Upsert(store, snapshot, toUpdate[0].id, quote, env);
        IdsOfTail(toUpdate);
        assert forall id :: id !in IdsOf(toUpdate) ==> id != toUpdate[0].id && id !in IdsOf(toUpdate[1..]) by {
          assert IdsOf(toUpdate) == [toUpdate[0].id] + IdsOf(toUpdate[1..]);
        }
        RunPassFrame(next, snapshot, toUpdate[1..], env, count + 1);
    }
  }

  /** When every fetch succeeds, the pass counts every record, whatever the
      store does: refused reads and writes are still counted. */
  lemma {:induction false} RunPassCountsAll(store: Collection, snapshot: seq<HistoryRecord>, toUpdate: seq<HistoryRecord>,
                                            env: PassEnvironment, count: nat)
    requires forall j :: 0 <= j < |toUpdate| ==> env.fetch(toUpdate[j].id).Some?
    ensures RunPass(store, snapshot, toUpdate, env, count).outcome == Counted(count + |toUpdate|)
    decreases |toUpdate|
  {
    if toUpdate != [] {
      var quote := env.fetch(toUpdate[0].id).value;
      assert forall j :: 0 <= j < |toUpdate[1..]| ==> env.fetch(toUpdate[1..][j].id).Some? by {
        forall j | 0 <= j < |toUpdate[1..]| ensures env.fetch(toUpdate[1..][j].id).Some? {
          assert toUpdate[1..][j] == toUpdate[j + 1];
        }
      }
      RunPassCountsAll(Upsert(store, snapshot, toUpdate[0].id, quote, env), snapshot, toUpdate[1..], env, count + 1);
    }
  }

  lemma FetchedByPosition(s: seq<HistoryRecord>, env: PassEnvironment)
    requires forall h :: h in s ==> env.fetch(h.id).Some?
    ensures forall j :: 0 <= j < |s| ==> env.fetch(s[j].id).Some?
  {
    forall j | 0 <= j < |s| ensures env.fetch(s[j].id).Some? {
      assert s[j] in s;
    }
  }

  /** The first failed fetch, at position k, ends the pass: the outcome names
      that symbol and the store is what updating the records before it left. */
  lemma {:induction false} RunPassFailsAt(store: Collection, snapshot: seq<HistoryRecord>, toUpdate: seq<HistoryRecord>,
                                          env: PassEnvironment, count: nat, k: nat)
    requires k < |toUpdate| && env.fetch(toUpdate[k].id).None?
    requires forall j :: 0 <= j < k ==> env.fetch(toUpdate[j].id).Some?
    ensures RunPass(store, snapshot, toUpdate, env, count) ==
      PassResult(RunPass(store, snapshot, toUpdate[..k], env, count).store, FetchFailed(toUpdate[k].id))
    decreases k
  {
    if k == 0 {
      assert toUpdate[..0] == [];
    } else {
      var quote := env.fetch(toUpdate[0].id).value;
      var next := Upsert(store, snapshot, toUpdate[0].id, quote, env);
      var tail := toUpdate[1..];
      assert tail[k - 1] == toUpdate[k];
      assert forall j :: 0 <= j < k - 1 ==> env.fetch(tail[j].id).Some? by {
        forall j | 0 <= j < k - 1 ensures env.fetch(tail[j].id).Some? {
          assert tail[j] == toUpdate[j + 1];
        }
      }
      RunPassFailsAt(next, snapshot, tail, env, count + 1, k - 1);
      assert toUpdate[..k][0] == toUpdate[0];
      assert toUpdate[..k][1..] == tail[..k - 1];
    }
  }

  /** With no faults on the records to update, each of them ends as its
      snapshot record with the fetched quote appended. */
  lemma {:induction false} RunPassAppends(store: Collection, snapshot: seq<HistoryRecord>, toUpdate: seq<HistoryRecord>,
                                          env: PassEnvironment, count: nat)
    requires store.Valid() && Distinct(IdsOf(snapshot)) && AllListed(snapshot, toUpdate) && Distinct(IdsOf(toUpdate))
    requires forall j :: 0 <= j < |toUpdate| ==>
      toUpdate[j].id in store.docs && env.fetch(toUpdate[j].id).Some? &&
      !env.readFails(toUpdate[j].id) && !env.writeFails(toUpdate[j].id)
    ensures var r := RunPass(store, snapshot, toUpdate, env, count).store;
      forall j :: 0 <= j < |toUpdate| ==>
        toUpdate[j].id in r.docs &&
        r.docs[toUpdate[j].id] == toUpdate[j].WithQuoteAppended(env.fetch(toUpdate[j].id).value, env.today)
    decreases |toUpdate|
  {
    if toUpdate != [] {
      var h := toUpdate[0];
      var quote := env.fetch(h.id).value;
      var m :| 0 <= m < |snapshot| && snapshot[m] == h;
      ReplaceWritesSnapshotRecord(store, snapshot, m, quote, env);
      var next := Upsert(store, snapshot, h.id, quote, env);
      assert next.docs[h.id] == h.WithQuoteAppended(quote, env.today);
      var tail := toUpdate[1..];
      IdsOfTail(toUpdate);
      assert h.id !in IdsOf(tail) by {
        forall j | 0 <= j < |tail| ensures IdsOf(tail)[j] != h.id {
          assert IdsOf(toUpdate)[0] != IdsOf(toUpdate)[j + 1];
        }
      }
      assert Distinct(IdsOf(tail));
      forall j | 0 <= j < |tail|
        ensures tail[j] in snapshot && tail[j].id in next.docs && env.fetch(tail[j].id).Some?
        ensures !env.readFails(tail[j].id) && !env.writeFails(tail[j].id)
      {
        assert tail[j] == toUpdate[j + 1];
      }
      RunPassAppends(next, snapshot, tail, env, count + 1);
      RunPassFrame(next, snapshot, tail, env, count + 1);
      var r := RunPass(next, snapshot, tail, env, count + 1).store;
      forall j | 0 <= j < |toUpdate|
        ensures toUpdate[j].id in r.docs
        ensures r.docs[toUpdate[j].id] == toUpdate[j].WithQuoteAppended(env.fetch(toUpdate[j].id).value, env.today)
      {
        if j > 0 {
          assert toUpdate[j] == tail[j - 1];
        }
      }
    }
  }

  /** With distinct ids, a later record's id is not among the ids before it. */
  lemma LaterIdNotInPrefix(s: seq<HistoryRecord>, k: nat, j: nat)
    requires Distinct(IdsOf(s)) && k <= j < |s|
    ensures s[j].id !in IdsOf(s[..k])
  {
    assert IdsOf(s[..k]) == IdsOf(s)[..k];
    assert IdsOf(s)[j] == s[j].id;
  }

  // ------------------------------------------------------- the daily pass

  /** Facts about the snapshot and its stale records that every daily
      property starts from. */
  lemma StaleFacts(c: Collection, today: Day)
    requires c.Valid()
    ensures var stale := StaleRecords(c.Listing(), today);
      && Distinct(IdsOf(c.Listing()))
      && Distinct(IdsOf(stale))
      && AllListed(c.Listing(), stale)
      && (forall j :: 0 <= j < |stale| ==> stale[j].id in c.docs && c.docs[stale[j].id] == stale[j])
  {
    var listing := c.Listing();
    var stale := StaleRecords(listing, today);
    ListingIds(c);
    StaleIdsDistinct(listing, today);
    forall j | 0 <= j < |stale| ensures stale[j] in listing && stale[j].id in c.docs && c.docs[stale[j].id] == stale[j] {
      assert stale[j] in stale;
      ListedIsStored(c, stale[j]);
    }
  }

  /** The daily pass keeps the store valid and creates no document: ids and
      listing order are unchanged, whatever the quote service and the store do. */
  lemma DailyPassCreatesNothing(c: Collection, env: PassEnvironment)
    requires c.Valid()
    ensures var r := DailyQueries(c, env).store;
      r.Valid() && r.docs.Keys == c.docs.Keys && r.order == c.order
  {
    StaleFacts(c, env.today);
    RunPassKeepsShape(c, c.Listing(), StaleRecords(c.Listing(), env.today), env, 0);
  }

  /** Only stale documents can change: one updated today or later is left
      exactly as it was. */
  lemma OnlyStaleRecordsChange(c: Collection, env: PassEnvironment)
    requires c.Valid()
    ensures var r := DailyQueries(c, env).store;
      forall id :: id in c.docs && !c.docs[id].IsStaleOn(env.today) ==> id in r.docs && r.docs[id] == c.docs[id]
  {
    var listing := c.Listing();
    var stale := StaleRecords(listing, env.today);
    StaleFacts(c, env.today);
    RunPassFrame(c, listing, stale, env, 0);
  }

  /** When every stale symbol's quote arrives, the pass returns the number of
      stale records, even if the store refuses some reads or writes. */
  lemma DailyCountIsStaleCount(c: Collection, env: PassEnvironment)
    requires c.Valid()
    requires forall h :: h in StaleRecords(c.Listing(), env.today) ==> env.fetch(h.id).Some?
    ensures DailyQueries(c, env).outcome == Counted(|StaleRecords(c.Listing(), env.today)|)
  {
    var stale := StaleRecords(c.Listing(), env.today);
    FetchedByPosition(stale, env);
    RunPassCountsAll(c, c.Listing(), stale, env, 0);
    assert DailyQueries(c, env) == RunPass(c, c.Listing(), stale, env, 0);
  }

  /** A failed quote fetch aborts the whole pass: the outcome names the
      symbol, and that record and every stale record after it are left as
      they were. */
  lemma FetchFailureAborts(c: Collection, env: PassEnvironment, k: nat)
    requires c.Valid()
    requires k < |StaleRecords(c.Listing(), env.today)|
    requires env.fetch(StaleRecords(c.Listing(), env.today)[k].id).None?
    requires forall j :: 0 <= j < k ==> env.fetch(StaleRecords(c.Listing(), env.today)[j].id).Some?
    ensures var stale := StaleRecords(c.Listing(), env.today);
      var r := DailyQueries(c, env);
      && r.outcome == FetchFailed(stale[k].id)
      && forall j :: k <= j < |stale| ==> stale[j].id in r.store.docs && r.store.docs[stale[j].id] == stale[j]
  {
    var listing := c.Listing();
    var stale := StaleRecords(listing, env.today);
    StaleFacts(c, env.today);
    RunPassFailsAt(c, listing, stale, env, 0, k);
    RunPassFrame(c, listing, stale[..k], env, 0);
    forall j | k <= j < |stale| ensures stale[j].id !in IdsOf(stale[..k]) {
      LaterIdNotInPrefix(stale, k, j);
    }
  }

  /** Without faults, the pass appends exactly one quote, today's, to every
      stale document, leaves every other document alone, and counts the
      stale documents. */
  lemma FaultFreePassAppendsOneQuote(c: Collection, env: PassEnvironment)
    requires c.Valid() && FaultFreeFor(c, env)
    ensures var r := DailyQueries(c, env);
      && r.outcome == Counted(|StaleRecords(c.Listing(), env.today)|)
      && r.store.docs.Keys == c.docs.Keys
      && forall id :: id in c.docs ==>
           r.store.docs[id] == if c.docs[id].IsStaleOn(env.today)
                               then c.docs[id].WithQuoteAppended(env.fetch(id).value, env.today)
                               else c.docs[id]
  {
    var listing := c.Listing();
    var stale := StaleRecords(listing, env.today);
    StaleFacts(c, env.today);
    DailyPassCreatesNothing(c, env);
    OnlyStaleRecordsChange(c, env);
    forall h | h in stale ensures env.fetch(h.id).Some? {
      ListedIsStored(c, h);
    }
    DailyCountIsStaleCount(c, env);
    RunPassAppends(c, listing, stale, env, 0);
    forall id | id in c.docs && c.docs[id].IsStaleOn(env.today)
      ensures exists j :: 0 <= j < |stale| && stale[j] == c.docs[id]
    {
      StoredIsListed(c, id);
      assert c.docs[id] in stale;
    }
  }

  /** When every record was already updated today, the pass counts zero and
      leaves the store exactly as it was. */
  lemma NothingStaleIsNoop(c: Collection, env: PassEnvironment)
    requires c.Valid()
    requires forall id :: id in c.docs ==> !c.docs[id].IsStaleOn(env.today)
    ensures DailyQueries(c, env) == PassResult(c, Counted(0))
  {
    var stale := StaleRecords(c.Listing(), env.today);
    if stale != [] {
      assert stale[0] in stale;
      ListedIsStored(c, stale[0]);
      assert false;
    }
  }

  /** A second pass on the same day, after a fault-free one, finds nothing
      stale: it changes nothing and counts zero. */
  lemma SameDayRerunIsNoop(c: Collection, env: PassEnvironment)
    requires c.Valid() && FaultFreeFor(c, env)
    ensures var r := DailyQueries(c, env).store;
      r.Valid() && DailyQueries(r, env) == PassResult(r, Counted(0))
  {
    var r := DailyQueries(c, env).store;
    DailyPassCreatesNothing(c, env);
    FaultFreePassAppendsOneQuote(c, env);
    var stale := StaleRecords(r.Listing(), env.today);
    if stale != [] {
      assert stale[0] in stale;
      ListedIsStored(r, stale[0]);
      assert false;
    }
  }

  /** A symbol that was only just put under tracking (its document has no
      quote and was never updated) gets its first quote on the very next
      fault-free pass, provided the clock is past DateTime.MinValue. */
  lemma TrackedSymbolGetsFirstQuote(c: Collection, env: PassEnvironment, id: string, createdOn: Day)
    requires c.Valid() && FaultFreeFor(c, env)
    requires id in c.docs && c.docs[id] == TrackedRecord(id, createdOn) && env.today > MinDay
    ensures var r := DailyQueries(c, env).store;
      id in r.docs && r.docs[id] == HistoryRecord(id, true, createdOn, env.today, [env.fetch(id).value])
  {
    FaultFreePassAppendsOneQuote(c, env);
  }
}
