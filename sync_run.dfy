/** One run of `sync_conversations`: the ledger row, the fetch, the upsert
    and its commit, the detail pass, and the single terminal write to the
    ledger. */
module SyncRun {
  import opened JsonValue
  import opened Outcomes
  import opened ProviderClient
  import opened ConversationStore
  import opened Reconcile
  import opened Enrichment

  /** `sync_logs.status` */
  datatype RunStatus = Running | Completed | Failed

  /** A `sync_logs` row (database.py `SyncLog`); `error` stands for
      `error_message = str(e)`. */
  datatype LogRow = LogRow(
    agentId: string,
    syncType: string,
    startedAt: int,
    finishedAt: Option<int>,
    conversationsFetched: nat,
    detailsFetched: nat,
    status: RunStatus,
    error: Option<Error>,
    periodFrom: Option<int>,
    periodTo: Option<int>)

  /** The row committed when the run starts. */
  function Opened(agentId: string, syncType: string, periodFrom: Option<int>, periodTo: Option<int>, now: int): LogRow {
    LogRow(agentId, syncType, now, None, 0, 0, Running, None, periodFrom, periodTo)
  }

  /** The ledger row of one run, as it stands in the database. */
  class SyncLog {
    var agentId: string
    var syncType: string
    var startedAt: int
    var finishedAt: Option<int>
    var conversationsFetched: nat
    var detailsFetched: nat
    var status: RunStatus
    var error: Option<Error>
    var periodFrom: Option<int>
    var periodTo: Option<int>

    function Row(): LogRow
      reads this
    {
      LogRow(agentId, syncType, startedAt, finishedAt, conversationsFetched, detailsFetched, status, error,
             periodFrom, periodTo)
    }

    /** `SyncLog(...)`, added and committed: running, nothing counted. */
    constructor(agentId: string, syncType: string, periodFrom: Option<int>, periodTo: Option<int>, now: int)
      ensures Row() == Opened(agentId, syncType, periodFrom, periodTo, now)
    {
      this.agentId := agentId;
      this.syncType := syncType;
      startedAt := now;
      finishedAt := None;
      conversationsFetched := 0;
      detailsFetched := 0;
      status := Running;
      error := None;
      this.periodFrom := periodFrom;
      this.periodTo := periodTo;
    }

    /** `log.conversations_fetched = len(conversations)`, which reaches the
        database with the commit after the upsert loop. */
    method RecordListed(fetched: nat)
      modifies this
      ensures Row() == old(Row()).(conversationsFetched := fetched)
    {
      conversationsFetched := fetched;
    }

    /** The write on success: the detail count, completed, finished now. */
    method Complete(details: nat, now: int)
      modifies this
      ensures Row() == old(Row()).(detailsFetched := details, status := Completed, finishedAt := Some(now))
    {
      detailsFetched := details;
      status := Completed;
      finishedAt := Some(now);
    }

    /** The write of the exception handler: failed with the error, finished
        now. */
    method Fail(e: Error, now: int)
      modifies this
      ensures Row() == old(Row()).(status := Failed, error := Some(e), finishedAt := Some(now))
    {
      status := Failed;
      error := Some(e);
      finishedAt := Some(now);
    }
  }

  /** The arguments of `sync_conversations` besides the API key. */
  datatype SyncRequest = SyncRequest(agentId: string, start: Option<int>, end: Option<int>,
                                     syncType: string, fetchDetails: bool)

  function WindowOf(rq: SyncRequest): Window {
    Window(rq.agentId, rq.start, rq.end)
  }

  /** The dict returned on success; its `status` is always "completed". */
  datatype Summary = Summary(conversationsFetched: nat, newStored: nat, detailsFetched: nat)

  /** What a run leaves: the committed table, the committed ledger row, and
      the summary or the exception that escapes. */
  datatype Run = Run(table: Table, log: LogRow, result: Result<Summary>)

  /** The listing ends within `maxPages` pages. */
  predicate ListingEnds(server: Server, rq: SyncRequest, maxPages: nat) {
    !Paginate(server, WindowOf(rq), JNull, maxPages).PageLimit?
  }

  /** A run against the committed table `t`. A failed fetch fails the run
      with nothing stored. An error in the upsert loop commits the rows
      written so far with the failed ledger row. A flush that fails, in the
      commit after the loop or in the detail pass, leaves the session
      refusing the handler's own commit, which raises PendingRollbackError;
      a flush that fails in the handler's own commit raises its own error.
      Either way the run fails with `RolledBack`: the table is that of the last commit that went through and the
      ledger stays running. A run that goes through is completed. */
  function Sync(t: Table, server: Server, detailOf: DetailServer, rq: SyncRequest, now: int, maxPages: nat): (r: Run)
    requires TableValid(t) && ListingEnds(server, rq, maxPages)
    ensures r.result.Success? <==> r.log.status == Completed
    ensures r.log.status == Running ==> r.result == Failure(RolledBack) && r.log.finishedAt == None
    ensures r.log.status != Running ==> r.log.finishedAt == Some(now)
  {
    var started := Opened(rq.agentId, rq.syncType, rq.start, rq.end, now);
    match Paginate(server, WindowOf(rq), JNull, maxPages)
    case PageLimit => Run(t, started, Failure(RequestFailed))
    case FetchFailed(e) =>
      Run(t, started.(status := Failed, error := Some(e), finishedAt := Some(now)), Failure(e))
    case Fetched(items) =>
      var rc := Reconciliation(t, items, rq.agentId, now);
      match Commit(t, rc.pending)
      case Failure(_) => Run(t, started, Failure(RolledBack))
      case Success(t1) =>
        var listed := started.(conversationsFetched := |items|);
        if rc.error.Some? then
          Run(t1, listed.(status := Failed, error := rc.error, finishedAt := Some(now)), Failure(rc.error.value))
        else
          CommitKeepsTableValid(t, rc.pending);
          SelectionMembers(t1, rq.agentId, rq.start, rq.end);
          var sel := if rq.fetchDetails then Selection(t1, rq.agentId, rq.start, rq.end) else [];
          var en := EnrichAll(t1, sel, detailOf, now);
          if Flushed(en) then
            Run(Table(t1.ids, en.rows),
                listed.(detailsFetched := en.count, status := Completed, finishedAt := Some(now)),
                Success(Summary(|items|, |rc.pending.newIds|, en.count)))
          else Run(Table(t1.ids, en.saved), listed, Failure(RolledBack))
  }

  /** `sync_conversations`, against the table in `store`. */
  method SyncConversations(store: Store, server: Server, detailOf: DetailServer, rq: SyncRequest, now: int,
                           maxPages: nat)
    returns (log: SyncLog, result: Result<Summary>)
    requires store.Valid() && ListingEnds(server, rq, maxPages)
    modifies store
    ensures fresh(log) && store.Valid()
    ensures Run(store.Snapshot(), log.Row(), result) == Sync(old(store.Snapshot()), server, detailOf, rq, now, maxPages)
  {
    log := new SyncLog(rq.agentId, rq.syncType, rq.start, rq.end, now);
    var fetched := FetchAllConversations(server, WindowOf(rq), maxPages);
    if fetched.FetchFailed? {
      log.Fail(fetched.error, now);
      return log, Failure(fetched.error);
    }
    var items := fetched.conversations;
    var p, stored, err := ReconcileList(store, items, rq.agentId, now);
    var ok := store.Commit(p);
    if !ok {
      return log, Failure(RolledBack);
    }
    log.RecordListed(|items|);
    if err.Some? {
      log.Fail(err.value, now);
      return log, Failure(err.value);
    }
    var count, flushed := 0, true;
    if rq.fetchDetails {
      var sel := Selection(store.Snapshot(), rq.agentId, rq.start, rq.end);
      SelectionMembers(store.Snapshot(), rq.agentId, rq.start, rq.end);
      count, flushed := EnrichDetails(store, sel, detailOf, now);
    }
    if !flushed {
      return log, Failure(RolledBack);
    }
    log.Complete(count, now);
    result := Success(Summary(|items|, stored, count));
  }
}
