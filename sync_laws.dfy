/** What one run of `sync_conversations` leaves behind: the ledger row
    closed once, with the outcome; the table after a failed fetch, after an
    error in the upsert loop, and after a run that goes through; and a
    second run over the same listing storing nothing new. */
module SyncLaws {
  import opened JsonValue
  import opened Outcomes
  import opened ProviderClient
  import opened ConversationStore
  import opened Reconcile
  import opened ReconcileLaws
  import opened Enrichment
  import opened EnrichmentLaws
  import opened SyncRun

  /** The ledger row of a run: it names the run's agent, type, window and
      start; it is completed exactly when the run returns a summary, with
      the summary's counts; it is failed with the escaping error otherwise;
      it is closed now in both cases. It stays running only when a flush
      failed and the handler's own commit does not go through: then the run
      fails with `RolledBack` and the row holds at most the listed count
      written before the failure. */
  lemma SyncLedger(t: Table, server: Server, detailOf: DetailServer, rq: SyncRequest, now: int, maxPages: nat)
    requires TableValid(t) && ListingEnds(server, rq, maxPages)
    ensures var r := Sync(t, server, detailOf, rq, now, maxPages);
      && r.log.agentId == rq.agentId && r.log.syncType == rq.syncType && r.log.startedAt == now
      && r.log.periodFrom == rq.start && r.log.periodTo == rq.end
      && (r.result.Success? <==> r.log.status == Completed)
      && (r.log.status != Running ==> r.log.finishedAt == Some(now))
      && (r.result.Success? ==>
            && r.log.error == None
            && r.log.conversationsFetched == r.result.value.conversationsFetched
            && r.log.detailsFetched == r.result.value.detailsFetched)
      && (r.log.status == Failed ==> r.result.Failure? && r.log.error == Some(r.result.error) && r.log.detailsFetched == 0)
      && (r.log.status == Running ==>
            && r.log == Opened(rq.agentId, rq.syncType, rq.start, rq.end, now).(conversationsFetched := r.log.conversationsFetched)
            && r.result == Failure(RolledBack))
  {
  }

  /** Whatever the outcome, the run leaves a valid table: a failed flush
      leaves what the last commit that went through stored. */
  lemma SyncKeepsTableValid(t: Table, server: Server, detailOf: DetailServer, rq: SyncRequest, now: int, maxPages: nat)
    requires TableValid(t) && ListingEnds(server, rq, maxPages)
    ensures TableValid(Sync(t, server, detailOf, rq, now, maxPages).table)
  {
    var fetch := Paginate(server, WindowOf(rq), JNull, maxPages);
    if fetch.Fetched? {
      var rc := Reconciliation(t, fetch.conversations, rq.agentId, now);
      if Commit(t, rc.pending).Success? {
        var t1 := Commit(t, rc.pending).value;
        CommitKeepsTableValid(t, rc.pending);
        SelectionMembers(t1, rq.agentId, rq.start, rq.end);
        var sel := if rq.fetchDetails then Selection(t1, rq.agentId, rq.start, rq.end) else [];
        DetailPassKeepsTableValid(t1, sel, detailOf, now);
      }
    }
  }

  /** A fetch that fails stores nothing and fails the run with the fetch's
      error, before any conversation is counted. */
  lemma SyncFetchFailed(t: Table, server: Server, detailOf: DetailServer, rq: SyncRequest, now: int, maxPages: nat)
    requires TableValid(t) && ListingEnds(server, rq, maxPages)
    requires Paginate(server, WindowOf(rq), JNull, maxPages).FetchFailed?
    ensures var r := Sync(t, server, detailOf, rq, now, maxPages);
      && r.table == t && r.log.status == Failed && r.log.conversationsFetched == 0
      && r.result == Failure(Paginate(server, WindowOf(rq), JNull, maxPages).error)
  {
  }

  /** The loop raises on the first item that is not admissible; the
      handler's commit then stores exactly what the items before it left
      pending and the run fails with that item's error, or, when that
      commit cannot flush, nothing is stored, the ledger stays running and
      the run fails with `RolledBack`. */
  lemma SyncCommitsPrefixOnError(t: Table, server: Server, detailOf: DetailServer, rq: SyncRequest, now: int,
                                 maxPages: nat)
    requires TableValid(t) && ListingEnds(server, rq, maxPages)
    requires Paginate(server, WindowOf(rq), JNull, maxPages).Fetched?
    requires var items := Paginate(server, WindowOf(rq), JNull, maxPages).conversations;
      Reconciliation(t, items, rq.agentId, now).error.Some?
    ensures var items := Paginate(server, WindowOf(rq), JNull, maxPages).conversations;
      var b := FirstBad(items, 0);
      var r := Sync(t, server, detailOf, rq, now, maxPages);
      && b < |items|
      && var committed := Commit(t, Reconciliation(t, items[..b], rq.agentId, now).pending);
      && (committed.Success? ==>
            && r.result == Failure(ItemError(items[b]))
            && r.table == committed.value && r.log.status == Failed && r.log.conversationsFetched == |items|)
      && (committed.Failure? ==> r.result == Failure(RolledBack) && r.table == t && r.log.status == Running)
  {
    var items := Paginate(server, WindowOf(rq), JNull, maxPages).conversations;
    var b := FirstBad(items, 0);
    StopsAtFirstBad(t, items, 0, Pending(t.rows, []), rq.agentId, now);
    var rc := Reconciliation(t, items, rq.agentId, now);
    assert rc.pending == Reconciliation(t, items[..b], rq.agentId, now).pending;
    assert rc.error == Some(ItemError(items[b]));
  }

  /** A run that goes through: the listing was fetched, the loop raised on
      no item, the commit went through, the detail pass flushed, and the
      table and summary are those of that pass over the committed table. */
  lemma SyncSuccessParts(t: Table, server: Server, detailOf: DetailServer, rq: SyncRequest, now: int, maxPages: nat)
    requires TableValid(t) && ListingEnds(server, rq, maxPages)
    requires Sync(t, server, detailOf, rq, now, maxPages).result.Success?
    ensures var fetch := Paginate(server, WindowOf(rq), JNull, maxPages);
      && fetch.Fetched?
      && var rc := Reconciliation(t, fetch.conversations, rq.agentId, now);
      && rc.error == None
      && Commit(t, rc.pending).Success?
      && var t1 := Commit(t, rc.pending).value;
      && TableValid(t1)
      && var sel := if rq.fetchDetails then Selection(t1, rq.agentId, rq.start, rq.end) else [];
      && AllStored(sel, t1.rows)
      && var en := EnrichAll(t1, sel, detailOf, now);
      && var r := Sync(t, server, detailOf, rq, now, maxPages);
      && Flushed(en)
      && r.table == Table(t1.ids, en.rows)
      && r.result.value == Summary(|fetch.conversations|, |rc.pending.newIds|, en.count)
  {
    var fetch := Paginate(server, WindowOf(rq), JNull, maxPages);
    var rc := Reconciliation(t, fetch.conversations, rq.agentId, now);
    CommitKeepsTableValid(t, rc.pending);
    SelectionMembers(Commit(t, rc.pending).value, rq.agentId, rq.start, rq.end);
  }

  /** After a detail pass over distinct stored keys of a valid table, the
      rows the batch commits stored form a valid table with the same keys
      in the same order, and so do the rows the pass leaves when they all
      bind. */
  lemma DetailPassKeepsTableValid(t1: Table, sel: seq<string>, detailOf: DetailServer, now: int)
    requires TableValid(t1) && AllStored(sel, t1.rows) && Distinct(sel)
    ensures var en := EnrichAll(t1, sel, detailOf, now);
      && en.rows.Keys == t1.rows.Keys && TableShape(Table(t1.ids, en.rows))
      && TableValid(Table(t1.ids, en.saved))
      && (Flushed(en) ==> TableValid(Table(t1.ids, en.rows)))
  {
    var en := EnrichAll(t1, sel, detailOf, now);
    DetailPassConforms(t1, sel, detailOf, now);
    DetailPassSaved(t1, sel, detailOf, now);
    assert forall k :: k in en.saved ==> Conforms(en.saved[k]) by {
      forall k | k in en.saved ensures Conforms(en.saved[k]) {
        assert en.saved[k] == t1.rows[k] || en.saved[k] == en.rows[k];
      }
    }
  }

  /** Every row the detail pass leaves keeps the NOT NULL columns set. */
  lemma DetailPassConforms(t1: Table, sel: seq<string>, detailOf: DetailServer, now: int)
    requires TableShape(t1) && AllStored(sel, t1.rows) && Distinct(sel)
    ensures var en := EnrichAll(t1, sel, detailOf, now);
      && en.rows.Keys == t1.rows.Keys
      && forall k :: k in en.rows ==> Conforms(en.rows[k])
  {
    var en := EnrichAll(t1, sel, detailOf, now);
    forall k | k in en.rows ensures Conforms(en.rows[k]) {
      DetailPass(t1, sel, detailOf, now, k);
    }
  }

  /** The detail pass decides a run whose listing was fetched, stored and
      committed: the run goes through exactly when the pass flushed, and
      then it is completed with one detail counted per complete detail;
      otherwise the rows the last batch commit stored stay, the ledger
      stays running with the listed count, and the run fails with
      `RolledBack`. */
  lemma SyncDetailPassOutcome(t: Table, server: Server, detailOf: DetailServer, rq: SyncRequest, now: int,
                              maxPages: nat)
    requires TableValid(t) && ListingEnds(server, rq, maxPages)
    requires Paginate(server, WindowOf(rq), JNull, maxPages).Fetched?
    requires var items := Paginate(server, WindowOf(rq), JNull, maxPages).conversations;
      var rc := Reconciliation(t, items, rq.agentId, now);
      rc.error == None && Commit(t, rc.pending).Success?
    ensures var items := Paginate(server, WindowOf(rq), JNull, maxPages).conversations;
      var rc := Reconciliation(t, items, rq.agentId, now);
      var t1 := Commit(t, rc.pending).value;
      var sel := if rq.fetchDetails then Selection(t1, rq.agentId, rq.start, rq.end) else [];
      && AllStored(sel, t1.rows)
      && var en := EnrichAll(t1, sel, detailOf, now);
      && var r := Sync(t, server, detailOf, rq, now, maxPages);
      && (r.result.Success? <==> Flushed(en))
      && (Flushed(en) ==>
            && r.table == Table(t1.ids, en.rows)
            && r.log.status == Completed && r.log.conversationsFetched == |items|
            && r.log.detailsFetched == en.count == EnrichmentLaws.Completed(sel, detailOf, 0)
            && r.result.value == Summary(|items|, |rc.pending.newIds|, en.count))
      && (!Flushed(en) ==>
            && r.table == Table(t1.ids, en.saved)
            && r.log == Opened(rq.agentId, rq.syncType, rq.start, rq.end, now).(conversationsFetched := |items|)
            && r.result == Failure(RolledBack))
  {
    var items := Paginate(server, WindowOf(rq), JNull, maxPages).conversations;
    var rc := Reconciliation(t, items, rq.agentId, now);
    var t1 := Commit(t, rc.pending).value;
    CommitKeepsTableValid(t, rc.pending);
    SelectionMembers(t1, rq.agentId, rq.start, rq.end);
    var sel := if rq.fetchDetails then Selection(t1, rq.agentId, rq.start, rq.end) else [];
    DetailCount(t1, sel, detailOf, now);
  }

  /** A failed detail request never fails a run: once the listing is
      stored and committed, a run whose detail server answers every request
      either with an error or with a detail whose values can be stored goes
      through, completed, counting exactly the complete details. */
  lemma SyncDetailFailuresIsolated(t: Table, server: Server, detailOf: DetailServer, rq: SyncRequest, now: int,
                                   maxPages: nat)
    requires TableValid(t) && ListingEnds(server, rq, maxPages)
    requires Paginate(server, WindowOf(rq), JNull, maxPages).Fetched?
    requires var items := Paginate(server, WindowOf(rq), JNull, maxPages).conversations;
      var rc := Reconciliation(t, items, rq.agentId, now);
      rc.error == None && Commit(t, rc.pending).Success?
    requires forall id :: detailOf(id).Success? ==> DetailBindable(detailOf(id).value)
    ensures var items := Paginate(server, WindowOf(rq), JNull, maxPages).conversations;
      var rc := Reconciliation(t, items, rq.agentId, now);
      var t1 := Commit(t, rc.pending).value;
      var sel := if rq.fetchDetails then Selection(t1, rq.agentId, rq.start, rq.end) else [];
      var r := Sync(t, server, detailOf, rq, now, maxPages);
      && r.result.Success? && r.log.status == Completed
      && r.log.detailsFetched == r.result.value.detailsFetched == EnrichmentLaws.Completed(sel, detailOf, 0)
  {
    var items := Paginate(server, WindowOf(rq), JNull, maxPages).conversations;
    var rc := Reconciliation(t, items, rq.agentId, now);
    var t1 := Commit(t, rc.pending).value;
    CommitKeepsTableValid(t, rc.pending);
    SelectionMembers(t1, rq.agentId, rq.start, rq.end);
    var sel := if rq.fetchDetails then Selection(t1, rq.agentId, rq.start, rq.end) else [];
    DetailPassFlushes(t1, sel, detailOf, now);
    SyncDetailPassOutcome(t, server, detailOf, rq, now, maxPages);
  }

  /** A run that goes through has fetched the listing, raised on no item,
      stored the listed items under keys not committed before, after the
      keys that were, and left a valid table. */
  lemma SyncSucceeded(t: Table, server: Server, detailOf: DetailServer, rq: SyncRequest, now: int, maxPages: nat)
    requires TableValid(t) && ListingEnds(server, rq, maxPages)
    requires Sync(t, server, detailOf, rq, now, maxPages).result.Success?
    ensures var fetch := Paginate(server, WindowOf(rq), JNull, maxPages);
      var r := Sync(t, server, detailOf, rq, now, maxPages);
      && fetch.Fetched?
      && Reconciliation(t, fetch.conversations, rq.agentId, now).error == None
      && r.result.value.conversationsFetched == |fetch.conversations|
      && r.result.value.newStored == CountNew(t, fetch.conversations)
      && |r.table.ids| == |t.ids| + r.result.value.newStored
      && r.table.ids[..|t.ids|] == t.ids
      && TableValid(r.table)
  {
    SyncSuccessParts(t, server, detailOf, rq, now, maxPages);
    var items := Paginate(server, WindowOf(rq), JNull, maxPages).conversations;
    var rc := Reconciliation(t, items, rq.agentId, now);
    var t1 := Commit(t, rc.pending).value;
    assert items[..0] == [];
    StoredCountsNewItems(t, items, 0, Pending(t.rows, []), rq.agentId, now);
    SelectionMembers(t1, rq.agentId, rq.start, rq.end);
    var sel := if rq.fetchDetails then Selection(t1, rq.agentId, rq.start, rq.end) else [];
    DetailPassKeepsTableValid(t1, sel, detailOf, now);
    assert (t.ids + rc.pending.newIds)[..|t.ids|] == t.ids;
  }

  /** The keys a run sends to the detail pass. */
  function Selected(t: Table, rq: SyncRequest): seq<string> {
    if rq.fetchDetails then Selection(t, rq.agentId, rq.start, rq.end) else []
  }

  /** A detail pass that flushed over `t1`, followed by a refresh that kept
      every row's agent, start time and fetched mark: the next pass selects
      only rows the first pass selected and did not complete, so it counts
      nothing and every detail it applies is one the first pass already
      stored, which binds again. */
  lemma RerunPassFlushes(t1: Table, t3: Table, rq: SyncRequest, detailOf: DetailServer, now: int, now': int)
    requires TableValid(t1) && TableValid(t3) && AllStored(Selected(t1, rq), t1.rows)
    requires Flushed(EnrichAll(t1, Selected(t1, rq), detailOf, now))
    requires t3.rows.Keys == t1.rows.Keys
    requires forall k :: k in t3.rows ==> SameOutsideSummary(t3.rows[k], EnrichAll(t1, Selected(t1, rq), detailOf, now).rows[k])
    ensures AllStored(Selected(t3, rq), t3.rows)
    ensures var en2 := EnrichAll(t3, Selected(t3, rq), detailOf, now');
      Flushed(en2) && en2.count == 0
  {
    var sel1, sel2 := Selected(t1, rq), Selected(t3, rq);
    SelectionMembers(t1, rq.agentId, rq.start, rq.end);
    SelectionMembers(t3, rq.agentId, rq.start, rq.end);
    var en1 := EnrichAll(t1, sel1, detailOf, now);
    forall j | 0 <= j < |sel2|
      ensures sel2[j] in sel1 && !(detailOf(sel2[j]).Success? && Dicts(detailOf(sel2[j]).value))
    {
      var k := sel2[j];
      DetailPass(t1, sel1, detailOf, now, k);
      assert NeedsDetails(en1.rows[k], rq.agentId, rq.start, rq.end);
    }
    QuietPass(Enriched(t3.rows, 0, t3.rows, false), sel2, 0, detailOf, now');
    assert sel2[0..] == sel2;
    var en2 := EnrichAll(t3, sel2, detailOf, now');
    forall k | k in en2.rows ensures Bindable(en2.rows[k]) {
      if k in sel2 && detailOf(k).Success? && !DebugRaises(detailOf(k).value) {
        var d := detailOf(k).value;
        DetailPass(t1, sel1, detailOf, now, k);
        DetailBindableIff(t1.rows[k], d, now);
        DetailBindableIff(t3.rows[k], d, now');
      }
    }
  }

  /** A second run over the same listing, after a run that went through,
      goes through too: its commit flushes, it stores no new conversation,
      keeps the table's keys, and completes. */
  lemma SyncRerunStoresNothing(t: Table, server: Server, detailOf: DetailServer, rq: SyncRequest, now: int,
                               maxPages: nat, now': int)
    requires TableValid(t) && ListingEnds(server, rq, maxPages)
    requires Sync(t, server, detailOf, rq, now, maxPages).result.Success?
    ensures var t2 := Sync(t, server, detailOf, rq, now, maxPages).table;
      && TableValid(t2)
      && var r2 := Sync(t2, server, detailOf, rq, now', maxPages);
      && r2.result.Success? && r2.result.value.newStored == 0
      && |r2.table.ids| == |t2.ids| && r2.log.status == Completed
  {
    SyncSuccessParts(t, server, detailOf, rq, now, maxPages);
    var items := Paginate(server, WindowOf(rq), JNull, maxPages).conversations;
    var rc := Reconciliation(t, items, rq.agentId, now);
    var t1 := Commit(t, rc.pending).value;
    SelectionMembers(t1, rq.agentId, rq.start, rq.end);
    var sel := Selected(t1, rq);
    DetailPassKeepsTableValid(t1, sel, detailOf, now);
    var en1 := EnrichAll(t1, sel, detailOf, now);
    var t2 := Table(t1.ids, en1.rows);
    RerunCommits(t, items, rq.agentId, now, t1, t2, rq.agentId, now');
    var rc2 := Reconciliation(t2, items, rq.agentId, now');
    CommitKeepsTableValid(t2, rc2.pending);
    var t3 := Commit(t2, rc2.pending).value;
    forall k | k in t3.rows ensures SameOutsideSummary(t3.rows[k], en1.rows[k]) {
      ReconcileCommittedRow(t2, items, rq.agentId, now', k);
    }
    RerunPassFlushes(t1, t3, rq, detailOf, now, now');
    SyncDetailPassOutcome(t2, server, detailOf, rq, now', maxPages);
  }

  /** A run whose loop inserts nothing reports no new conversation. */
  lemma SyncRerunCount(t2: Table, server: Server, detailOf: DetailServer, rq: SyncRequest, now: int, maxPages: nat)
    requires TableValid(t2) && ListingEnds(server, rq, maxPages)
    requires var fetch := Paginate(server, WindowOf(rq), JNull, maxPages);
      fetch.Fetched? ==> Reconciliation(t2, fetch.conversations, rq.agentId, now).pending.newIds == []
    ensures var r2 := Sync(t2, server, detailOf, rq, now, maxPages);
      r2.result.Success? ==> r2.result.value.newStored == 0
  {
    if Sync(t2, server, detailOf, rq, now, maxPages).result.Success? {
      SyncSuccessParts(t2, server, detailOf, rq, now, maxPages);
    }
  }
}
