/** The detail pass of `sync_conversations`: which stored rows are
    enriched, one detail request per row, each failure confined to its row. */
module Enrichment {
  import opened JsonValue
  import opened Outcomes
  import opened ProviderClient
  import opened ConversationStore

  /** The detail endpoint: the decoded document for a conversation id, or
      the error the request raised. */
  type DetailServer = string -> Result<Json>

  /** SQLite's `start_time_unix >= bound` on a stored value: numbers compare
      as numbers (True is 1), text sorts after every number, and NULL or
      anything else satisfies no comparison. */
  predicate AtLeast(v: Json, bound: int) {
    match v
    case JInt(n) => n >= bound
    case JBool(b) => (if b then 1 else 0) >= bound
    case JStr(_) => true
    case _ => false
  }

  /** SQLite's `start_time_unix <= bound`, in the same order. */
  predicate AtMost(v: Json, bound: int) {
    match v
    case JInt(n) => n <= bound
    case JBool(b) => (if b then 1 else 0) <= bound
    case _ => false
  }

  /** The filter of the detail query: this agent, not fetched yet, and the
      start time inside the window, each bound applied only when truthy and
      both inclusive. */
  predicate NeedsDetails(row: Conversation, agentId: string, start: Option<int>, end: Option<int>) {
    && row.agentId == JStr(agentId)
    && !row.detailsFetched
    && (IsSet(start) ==> AtLeast(row.startTimeUnix, start.value))
    && (IsSet(end) ==> AtMost(row.startTimeUnix, end.value))
  }

  /** The keys from `ids[i..]` whose rows pass the filter, in table order. */
  function SelectFrom(ids: seq<string>, rows: map<string, Conversation>, agentId: string,
                      start: Option<int>, end: Option<int>, i: nat): (r: seq<string>)
    ensures |r| <= if i <= |ids| then |ids| - i else 0
    ensures forall id :: id in r ==> id in ids && id in rows && NeedsDetails(rows[id], agentId, start, end)
    decreases |ids| - i
  {
    if i >= |ids| then []
    else
      var rest := SelectFrom(ids, rows, agentId, start, end, i + 1);
      if ids[i] in rows && NeedsDetails(rows[ids[i]], agentId, start, end) then [ids[i]] + rest else rest
  }

  /** `convs_needing_details.all()`, taken in rowid order. */
  function Selection(t: Table, agentId: string, start: Option<int>, end: Option<int>): (r: seq<string>)
    ensures |r| <= |t.ids|
    ensures forall id :: id in r ==> id in t.ids && id in t.rows && NeedsDetails(t.rows[id], agentId, start, end)
  {
    SelectFrom(t.ids, t.rows, agentId, start, end, 0)
  }

  /** A key is selected exactly when it is stored and its row passes the
      filter; no key is selected twice. */
  lemma {:induction false} SelectFromMembers(ids: seq<string>, rows: map<string, Conversation>, agentId: string,
                                             start: Option<int>, end: Option<int>, i: nat)
    requires Distinct(ids) && i <= |ids|
    ensures var s := SelectFrom(ids, rows, agentId, start, end, i);
      && Distinct(s)
      && forall id :: id in s <==> id in ids[i..] && id in rows && NeedsDetails(rows[id], agentId, start, end)
    decreases |ids| - i
  {
    if i < |ids| {
      SelectFromMembers(ids, rows, agentId, start, end, i + 1);
      assert ids[i..] == [ids[i]] + ids[i + 1..];
      assert ids[i] !in ids[i + 1..];
    }
  }

  lemma SelectionMembers(t: Table, agentId: string, start: Option<int>, end: Option<int>)
    requires TableValid(t)
    ensures Distinct(Selection(t, agentId, start, end))
    ensures forall id :: id in Selection(t, agentId, start, end) <==>
                         id in t.rows && NeedsDetails(t.rows[id], agentId, start, end)
  {
    SelectFromMembers(t.ids, t.rows, agentId, start, end, 0);
    assert t.ids[0..] == t.ids;
  }

  /** `_log_metadata_debug` raises for a detail that is not a dict or whose
      `metadata` is not a dict; it runs only for the first three successes. */
  predicate DebugRaises(detail: Json) {
    !detail.JObj? || !GetOr(detail.members, "metadata", JObj([])).JObj?
  }

  /** The pass as it goes: the session's rows, the success counter
      `details_count`, the rows as of the last commit that went through,
      and whether a commit has failed. */
  datatype Enriched = Enriched(rows: map<string, Conversation>, count: nat,
                               saved: map<string, Conversation>, broken: bool)

  /** `if details_count % 10 == 0: db.commit()` after a complete update. The
      flush binds every row; when one does not bind, the error is caught,
      but the session is left refusing every later load and flush, so the
      run can only end in the handler. The model lets the remaining turns
      run on the working copy, which nothing then stores. */
  function BatchCommit(e: Enriched): (r: Enriched)
    ensures r.rows == e.rows && r.count == e.count
    ensures r.saved == e.saved || (r.saved == e.rows && AllBindable(e.rows))
    ensures r.broken <==> e.broken || (e.count % 10 == 0 && !AllBindable(e.rows))
  {
    if e.count % 10 != 0 || e.broken then e
    else if AllBindable(e.rows) then e.(saved := e.rows)
    else e.(broken := true)
  }

  /** One turn of the loop for the row `id`: a failed request or a raised
      exception is caught, leaving whatever the update had already written;
      a complete update counts and may commit. Only the row `id` changes,
      and the counter goes up by at most one. */
  function EnrichOne(e: Enriched, id: string, reply: Result<Json>, now: int): (r: Enriched)
    requires id in e.rows
    ensures id in r.rows && r.rows == e.rows[id := r.rows[id]]
    ensures r.count == e.count || r.count == e.count + 1
    ensures reply.Failure? ==> r == e
  {
    match reply
    case Failure(_) => e
    case Success(detail) =>
      if e.count < 3 && DebugRaises(detail) then e
      else
        var applied := ApplyDetail(e.rows[id], detail, now);
        var updated := e.(rows := e.rows[id := applied.row]);
        if applied.complete then BatchCommit(updated.(count := e.count + 1)) else updated
  }

  ghost predicate AllStored(sel: seq<string>, rows: map<string, Conversation>) {
    forall id :: id in sel ==> id in rows
  }

  function EnrichFrom(e: Enriched, sel: seq<string>, i: nat, detailOf: DetailServer, now: int): (r: Enriched)
    requires AllStored(sel, e.rows)
    ensures r.rows.Keys == e.rows.Keys
    ensures r.count <= e.count + if i <= |sel| then |sel| - i else 0
    decreases |sel| - i
  {
    if i >= |sel| then e
    else EnrichFrom(EnrichOne(e, sel[i], detailOf(sel[i]), now), sel, i + 1, detailOf, now)
  }

  /** The whole detail pass over the selected keys `sel`, from the
      committed table `t`. Every key keeps its row. */
  function EnrichAll(t: Table, sel: seq<string>, detailOf: DetailServer, now: int): (r: Enriched)
    requires AllStored(sel, t.rows)
    ensures r.rows.Keys == t.rows.Keys && r.count <= |sel|
  {
    EnrichFrom(Enriched(t.rows, 0, t.rows, false), sel, 0, detailOf, now)
  }

  /** The `db.commit()` after the loop goes through: no earlier commit
      failed and every row binds. */
  predicate Flushed(e: Enriched) {
    !e.broken && AllBindable(e.rows)
  }

  /** The detail loop of `sync_conversations` over the selected keys and the
      commit after it; returns `details_count` and whether that commit went
      through. When it did not, the store holds the rows of the last commit
      that did. */
  method EnrichDetails(store: Store, sel: seq<string>, detailOf: DetailServer, now: int)
    returns (count: nat, flushed: bool)
    requires store.Valid() && AllStored(sel, store.rows)
    modifies store
    ensures var en := EnrichAll(old(store.Snapshot()), sel, detailOf, now);
      && store.ids == old(store.ids)
      && count == en.count && flushed == Flushed(en)
      && store.rows == if flushed then en.rows else en.saved
    ensures store.Valid()
  {
    count := 0;
    var saved := store.rows;
    var broken := false;
    for i := 0 to |sel|
      invariant store.ids == old(store.ids) && TableShape(store.Snapshot())
      invariant store.rows.Keys == old(store.rows).Keys
      invariant TableValid(Table(store.ids, saved))
      invariant EnrichFrom(Enriched(store.rows, count, saved, broken), sel, i, detailOf, now)
                == EnrichAll(old(store.Snapshot()), sel, detailOf, now)
    {
      var id := sel[i];
      var reply := detailOf(id);
      ghost var next := EnrichOne(Enriched(store.rows, count, saved, broken), id, reply, now);
      if reply.Success? {
        var detail := reply.value;
        if !(count < 3 && DebugRaises(detail)) {
          DetailKeepsTableShape(store.Snapshot(), id, detail, now);
          var complete := store.UpdateConversationDetails(id, detail, now);
          if complete {
            count := count + 1;
            if count % 10 == 0 && !broken {
              if AllBindable(store.rows) {
                saved := store.rows;
              } else {
                broken := true;
              }
            }
          }
        }
      }
      assert Enriched(store.rows, count, saved, broken) == next;
    }
    flushed := !broken && AllBindable(store.rows);
    if !flushed {
      store.Restore(saved);
    }
  }
}
