/** The upsert of the listed conversations into the table
    (sync_service.py `sync_conversations`, the loop over the list). The
    session does not autoflush, so the existence query inside the loop sees
    only the committed table: a key inserted earlier in the same run is
    inserted again, and the commit then fails. */
module Reconcile {
  import opened JsonValue
  import opened Outcomes
  import opened Calendar
  import opened ConversationStore

  /** The key the database compares and stores for a truthy
      `conversation_id`: a string as it is, an integer in decimal, True as
      "1". A list, a dict or an integer beyond 64 bits cannot be bound as a
      query parameter, so the existence query raises. */
  function IdKey(cid: Json): Result<string> {
    match cid
    case JStr(s) => Success(s)
    case JInt(n) => if FitsInt64(n) then Success(IntToString(n)) else Failure(Unbindable)
    case JBool(b) => Success(if b then "1" else "0")
    case _ => Failure(Unbindable)
  }

  /** The summary columns a listed item overwrites on an existing row, each
      kept when the item lacks it; `tool_names` is always rewritten, to []
      when absent. */
  function Refresh(row: Conversation, ms: seq<(string, Json)>): Conversation {
    row.(status := GetOr(ms, "status", row.status),
         callSuccessful := GetOr(ms, "call_successful", row.callSuccessful),
         callDurationSecs := GetOr(ms, "call_duration_secs", row.callDurationSecs),
         messageCount := GetOr(ms, "message_count", row.messageCount),
         transcriptSummary := GetOr(ms, "transcript_summary", row.transcriptSummary),
         callSummaryTitle := GetOr(ms, "call_summary_title", row.callSummaryTitle),
         mainLanguage := GetOr(ms, "main_language", row.mainLanguage),
         direction := GetOr(ms, "direction", row.direction),
         rating := GetOr(ms, "rating", row.rating),
         toolNames := GetOr(ms, "tool_names", JArr([])))
  }

  /** The row inserted for a listed item whose key is not stored yet; the
      columns the constructor does not name take their defaults. */
  function NewRow(ms: seq<(string, Json)>, agentId: string, startTs: Json, month: string, now: int): Conversation {
    Conversation(
      agentId := GetOr(ms, "agent_id", JStr(agentId)),
      agentName := Get(ms, "agent_name"),
      status := GetOr(ms, "status", JStr("unknown")),
      callSuccessful := GetOr(ms, "call_successful", JStr("unknown")),
      startTimeUnix := startTs,
      callDurationSecs := GetOr(ms, "call_duration_secs", JInt(0)),
      messageCount := GetOr(ms, "message_count", JInt(0)),
      transcriptSummary := Get(ms, "transcript_summary"),
      callSummaryTitle := Get(ms, "call_summary_title"),
      mainLanguage := Get(ms, "main_language"),
      direction := Get(ms, "direction"),
      rating := Get(ms, "rating"),
      toolNames := GetOr(ms, "tool_names", JArr([])),
      initiationSource := Get(ms, "conversation_initiation_source"),
      agentPhone := JNull,
      clientPhone := JNull,
      hasAudio := JNull,
      cost := JInt(0),
      terminationReason := JNull,
      userId := JNull,
      evaluationCriteriaResults := JNull,
      dataCollectionResults := JNull,
      transcript := JNull,
      fetchedAt := now,
      detailsFetched := false,
      monthPartition := month)
  }

  /** One pass of the loop body over `item`, against the committed table
      `t`: skipped without a truthy id, an error when the item is not a
      dict, its start time has no month, or its id cannot be bound. */
  function ReconcileItem(t: Table, p: Pending, item: Json, agentId: string, now: int): (r: Result<Pending>)
    ensures !item.JObj? ==> r == Failure(NotADict)
    ensures r.Success? ==> p.rows.Keys <= r.value.rows.Keys
    ensures r.Success? ==>
      || r.value.newIds == p.newIds
      || (&& |r.value.newIds| == |p.newIds| + 1 && r.value.newIds[..|p.newIds|] == p.newIds
          && r.value.newIds[|p.newIds|] !in t.rows)
  {
    if !item.JObj? then Failure(NotADict)
    else
      var ms := item.members;
      var cid := Get(ms, "conversation_id");
      if !Truthy(cid) then Success(p)
      else
        var startTs := GetOr(ms, "start_time_unix_secs", JInt(0));
        match MonthPartition(startTs)
        case Failure(e) => Failure(e)
        case Success(month) =>
          match IdKey(cid)
          case Failure(e) => Failure(e)
          case Success(key) =>
            if key in t.rows then
              var current := if key in p.rows then p.rows[key] else t.rows[key];
              Success(p.(rows := p.rows[key := Refresh(current, ms)]))
            else
              Success(Pending(p.rows[key := NewRow(ms, agentId, startTs, month, now)], p.newIds + [key]))
  }

  /** The pending changes after the loop, and the error that ended it early. */
  datatype Reconciled = Reconciled(pending: Pending, error: Option<Error>)

  function ReconcileFrom(t: Table, items: seq<Json>, i: nat, p: Pending, agentId: string, now: int): Reconciled
    decreases |items| - i
  {
    if i >= |items| then Reconciled(p, None)
    else
      match ReconcileItem(t, p, items[i], agentId, now)
      case Failure(e) => Reconciled(p, Some(e))
      case Success(next) => ReconcileFrom(t, items, i + 1, next, agentId, now)
  }

  /** The whole loop, from no pending changes. It only edits committed rows
      and adds rows under new keys. */
  function Reconciliation(t: Table, items: seq<Json>, agentId: string, now: int): (r: Reconciled)
    ensures PendingOver(t, r.pending)
  {
    ReconcileFromOver(t, items, 0, Pending(t.rows, []), agentId, now);
    ReconcileFrom(t, items, 0, Pending(t.rows, []), agentId, now)
  }

  /** The loop only edits committed rows and adds rows under new keys. */
  lemma {:induction false} ReconcileFromOver(t: Table, items: seq<Json>, i: nat, p: Pending, agentId: string, now: int)
    requires PendingOver(t, p)
    ensures PendingOver(t, ReconcileFrom(t, items, i, p, agentId, now).pending)
    decreases |items| - i
  {
    if i < |items| {
      var r := ReconcileItem(t, p, items[i], agentId, now);
      ItemKeepsOver(t, p, items[i], agentId, now);
      if r.Success? {
        assert ReconcileFrom(t, items, i, p, agentId, now) == ReconcileFrom(t, items, i + 1, r.value, agentId, now);
        ReconcileFromOver(t, items, i + 1, r.value, agentId, now);
      }
    }
  }

  /** One pass of the loop body only edits committed rows and adds a row
      under a new key. */
  lemma ItemKeepsOver(t: Table, p: Pending, item: Json, agentId: string, now: int)
    requires PendingOver(t, p)
    ensures ReconcileItem(t, p, item, agentId, now).Success? ==> PendingOver(t, ReconcileItem(t, p, item, agentId, now).value)
  {
  }

  /** The loop of `sync_conversations` over the fetched list: the pending
      changes, the number of inserts (`stored`), and the error that stopped
      it, if any. The table itself is not written until the commit. */
  method ReconcileList(store: Store, items: seq<Json>, agentId: string, now: int)
    returns (p: Pending, stored: nat, err: Option<Error>)
    requires store.Valid()
    ensures Reconciled(p, err) == Reconciliation(store.Snapshot(), items, agentId, now)
    ensures stored == |p.newIds|
    ensures PendingOver(store.Snapshot(), p)
  {
    ghost var t := store.Snapshot();
    p := Pending(store.rows, []);
    stored := 0;
    err := None;
    var i := 0;
    while i < |items|
      invariant 0 <= i <= |items|
      invariant stored == |p.newIds| && PendingOver(t, p)
      invariant ReconcileFrom(t, items, i, p, agentId, now) == Reconciliation(t, items, agentId, now)
    {
      var item := items[i];
      if !item.JObj? {
        err := Some(NotADict);
        break;
      }
      var ms := item.members;
      var cid := Get(ms, "conversation_id");
      if Truthy(cid) {
        var startTs := GetOr(ms, "start_time_unix_secs", JInt(0));
        var month := MonthPartition(startTs);
        if month.Failure? {
          err := Some(month.error);
          break;
        }
        var key := IdKey(cid);
        if key.Failure? {
          err := Some(key.error);
          break;
        }
        if key.value in store.rows {
          p := p.(rows := p.rows[key.value := Refresh(p.rows[key.value], ms)]);
        } else {
          p := Pending(p.rows[key.value := NewRow(ms, agentId, startTs, month.value, now)], p.newIds + [key.value]);
          stored := stored + 1;
        }
      }
      i := i + 1;
    }
  }
}
