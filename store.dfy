/** The `conversations` table (database.py `Conversation`) and the one
    operation that edits a stored row in place, `_update_conversation_details`. */
module ConversationStore {
  import opened JsonValue
  import opened Outcomes
  import opened PhoneResolver

  /** One row. A column filled from the provider holds the JSON value it was
      given (JNull is SQL NULL); the JSON-text columns (`tool_names`,
      `evaluation_criteria_results`, `data_collection_results`, `transcript`)
      hold the value before `json.dumps`. Times are seconds. */
  datatype Conversation = Conversation(
    agentId: Json,
    agentName: Json,
    status: Json,
    callSuccessful: Json,
    startTimeUnix: Json,
    callDurationSecs: Json,
    messageCount: Json,
    transcriptSummary: Json,
    callSummaryTitle: Json,
    mainLanguage: Json,
    direction: Json,
    rating: Json,
    toolNames: Json,
    initiationSource: Json,
    agentPhone: Json,
    clientPhone: Json,
    hasAudio: Json,
    cost: Json,
    terminationReason: Json,
    userId: Json,
    evaluationCriteriaResults: Json,
    dataCollectionResults: Json,
    transcript: Json,
    fetchedAt: int,
    detailsFetched: bool,
    monthPartition: string)

  /** The NOT NULL columns besides the key: `agent_id`, `status` and
      `start_time_unix` (`month_partition` is a string by construction). */
  predicate Conforms(row: Conversation) {
    row.agentId != JNull && row.status != JNull && row.startTimeUnix != JNull
  }

  /** A value the SQLite driver binds to a plain column: NULL, a bool, a
      string, or an integer within 64 bits. A list or a dict cannot be
      bound, and a larger integer overflows. */
  predicate BindableValue(v: Json) {
    match v
    case JNull => true
    case JBool(_) => true
    case JStr(_) => true
    case JInt(n) => FitsInt64(n)
    case _ => false
  }

  /** `has_audio` is a `Boolean` column, which accepts only None, True,
      False, 1 and 0. */
  predicate BindableFlag(v: Json) {
    v == JNull || v.JBool? || v == JInt(0) || v == JInt(1)
  }

  /** Whether the flush can bind every column of the row. The JSON-text
      columns are bound as the string `json.dumps` made, so they always can. */
  predicate Bindable(row: Conversation) {
    && BindableValue(row.agentId) && BindableValue(row.agentName) && BindableValue(row.status)
    && BindableValue(row.callSuccessful) && BindableValue(row.startTimeUnix)
    && BindableValue(row.callDurationSecs) && BindableValue(row.messageCount)
    && BindableValue(row.transcriptSummary) && BindableValue(row.callSummaryTitle)
    && BindableValue(row.mainLanguage) && BindableValue(row.direction) && BindableValue(row.rating)
    && BindableValue(row.initiationSource) && BindableValue(row.agentPhone) && BindableValue(row.clientPhone)
    && BindableFlag(row.hasAudio) && BindableValue(row.cost) && BindableValue(row.terminationReason)
    && BindableValue(row.userId)
  }

  predicate AllBindable(rows: map<string, Conversation>) {
    forall id :: id in rows ==> Bindable(rows[id])
  }

  /** The committed table: the keys in rowid order and the row under each. */
  datatype Table = Table(ids: seq<string>, rows: map<string, Conversation>)

  predicate Distinct(ids: seq<string>) {
    forall i, j :: 0 <= i < j < |ids| ==> ids[i] != ids[j]
  }

  /** One row per key, each within the column constraints: what the
      session's working copy keeps while the detail pass edits it. */
  ghost predicate TableShape(t: Table) {
    && Distinct(t.ids)
    && (forall id :: id in t.rows <==> id in t.ids)
    && (forall id :: id in t.rows ==> Conforms(t.rows[id]))
  }

  /** What the database guarantees of a committed table: its shape, and
      every value one the driver could bind. */
  ghost predicate TableValid(t: Table) {
    TableShape(t) && AllBindable(t.rows)
  }

  // ---------------------------------------------------------------------
  // Committing pending changes.

  /** The session's unflushed state (`autoflush=False`): the working copy of
      every row, committed rows edited in place and new rows added, and the
      keys of the new rows in the order they were added. A key added twice
      is listed twice; the working copy holds the later row. */
  datatype Pending = Pending(rows: map<string, Conversation>, newIds: seq<string>)

  /** The pending state of a session over the committed table `t`: the
      committed rows plus the new ones, and no new key already committed. */
  ghost predicate PendingOver(t: Table, p: Pending) {
    && (forall id :: id in p.newIds ==> id !in t.rows)
    && (forall id :: id in p.rows <==> id in t.rows || id in p.newIds)
  }

  /** Whether the flush at commit goes through: no key is inserted twice,
      every row keeps the NOT NULL columns set, and every value binds. */
  predicate Flushable(p: Pending) {
    && Distinct(p.newIds)
    && (forall id :: id in p.rows ==> Conforms(p.rows[id]))
    && AllBindable(p.rows)
  }

  /** `session.commit()`: all pending changes, the new keys after the old
      ones, or none of them. */
  function Commit(t: Table, p: Pending): Result<Table> {
    if Flushable(p) then Success(Table(t.ids + p.newIds, p.rows)) else Failure(FlushFailed)
  }

  lemma DistinctConcat(a: seq<string>, b: seq<string>)
    requires Distinct(a) && Distinct(b)
    requires forall id :: id in b ==> id !in a
    ensures Distinct(a + b)
  {
    forall i, j | 0 <= i < j < |a + b| ensures (a + b)[i] != (a + b)[j] {
      if i >= |a| {
        assert (a + b)[i] == b[i - |a|];
      } else if j >= |a| {
        assert (a + b)[j] == b[j - |a|] && (a + b)[i] in a;
      }
    }
  }

  /** A commit that goes through leaves a valid table. */
  lemma CommitKeepsTableValid(t: Table, p: Pending)
    requires TableValid(t) && PendingOver(t, p)
    requires Commit(t, p).Success?
    ensures TableValid(Commit(t, p).value)
  {
    DistinctConcat(t.ids, p.newIds);
  }

  // ---------------------------------------------------------------------
  // `_update_conversation_details`.

  /** `if v: column = v` */
  function Overwrite(current: Json, v: Json): Json {
    if Truthy(v) then v else current
  }

  /** The columns set from the detail's `metadata` dict `m`: cost,
      termination reason, user and the two phones. */
  function MetadataColumns(row: Conversation, d: seq<(string, Json)>, m: seq<(string, Json)>): Conversation {
    var phones := ExtractPhoneNumbers(d, m);
    row.(cost := GetOr(m, "cost", JInt(0)), terminationReason := Get(m, "termination_reason"),
         userId := Get(d, "user_id"), agentPhone := phones.agent, clientPhone := phones.client)
  }

  /** The columns set once `analysis` is a dict `a`: the outcome and summary
      (kept when absent), the JSON columns, duration and start time (kept
      when falsy), and the fetched mark. */
  function AnalysisColumns(row: Conversation, d: seq<(string, Json)>, m: seq<(string, Json)>,
                           a: seq<(string, Json)>, now: int): Conversation {
    row.(callSuccessful := GetOr(a, "call_successful", row.callSuccessful),
         transcriptSummary := GetOr(a, "transcript_summary", row.transcriptSummary),
         evaluationCriteriaResults := Overwrite(row.evaluationCriteriaResults, Get(a, "evaluation_criteria_results")),
         dataCollectionResults := Overwrite(row.dataCollectionResults, Get(a, "data_collection_results")),
         transcript := Overwrite(row.transcript, Get(d, "transcript")),
         callDurationSecs := Overwrite(row.callDurationSecs, Get(m, "call_duration_secs")),
         startTimeUnix := Overwrite(row.startTimeUnix, Get(m, "start_time_unix_secs")),
         detailsFetched := true, fetchedAt := now)
  }

  /** The row after `_update_conversation_details(row, detail)` and whether
      it ran to the end. It assigns the columns one after the other, so a
      value of the wrong type stops it half way: a detail that is not a
      dict changes nothing, a `metadata` that is not a dict stops it after
      `has_audio`, an `analysis` that is not a dict after the phones. */
  datatype Applied = Applied(row: Conversation, complete: bool)

  function ApplyDetail(row: Conversation, detail: Json, now: int): (r: Applied)
    ensures SameListColumns(row, r.row)
    ensures r.row.detailsFetched == (r.complete || row.detailsFetched)
    ensures r.row.fetchedAt == if r.complete then now else row.fetchedAt
  {
    if !detail.JObj? then Applied(row, false)
    else
      var d := detail.members;
      var meta := GetOr(d, "metadata", JObj([]));
      var analysis := GetOr(d, "analysis", JObj([]));
      var r1 := row.(hasAudio := GetOr(d, "has_audio", JBool(false)));
      if !meta.JObj? then Applied(r1, false)
      else
        var r2 := MetadataColumns(r1, d, meta.members);
        if !analysis.JObj? then Applied(r2, false)
        else Applied(AnalysisColumns(r2, d, meta.members, analysis.members, now), true)
  }

  /** The columns the list reconcile owns are never touched by a detail:
      agent, status, counts, titles, language, direction, rating, tools,
      initiation source, and the month partition (which is therefore not
      recomputed when the start time changes). */
  predicate SameListColumns(a: Conversation, b: Conversation) {
    && a.agentId == b.agentId && a.agentName == b.agentName && a.status == b.status
    && a.messageCount == b.messageCount && a.callSummaryTitle == b.callSummaryTitle
    && a.mainLanguage == b.mainLanguage && a.direction == b.direction && a.rating == b.rating
    && a.toolNames == b.toolNames && a.initiationSource == b.initiationSource
    && a.monthPartition == b.monthPartition
  }

  /** The update runs to the end exactly when the detail, its `metadata` and
      its `analysis` are dicts; only then is the row marked as fetched. A
      detail that is not a dict leaves the row as it was. */
  lemma DetailCompletesOnDicts(row: Conversation, detail: Json, now: int)
    ensures ApplyDetail(row, detail, now).complete <==>
      detail.JObj? && GetOr(detail.members, "metadata", JObj([])).JObj?
      && GetOr(detail.members, "analysis", JObj([])).JObj?
    ensures ApplyDetail(row, detail, now).row.detailsFetched <==>
      ApplyDetail(row, detail, now).complete || row.detailsFetched
    ensures ApplyDetail(row, detail, now).row.fetchedAt ==
      if ApplyDetail(row, detail, now).complete then now else row.fetchedAt
    ensures !detail.JObj? ==> ApplyDetail(row, detail, now).row == row
  {
  }

  /** What a complete update stores: the phones `_extract_phone_numbers`
      resolves; the audio flag, cost, termination reason and user from the
      detail; the outcome and summary from `analysis` (kept when absent); and
      the criteria, data collection, transcript, duration and start time
      only when the detail's value is truthy. */
  lemma CompleteDetailColumns(row: Conversation, d: seq<(string, Json)>, m: seq<(string, Json)>,
                              a: seq<(string, Json)>, now: int)
    requires GetOr(d, "metadata", JObj([])) == JObj(m) && GetOr(d, "analysis", JObj([])) == JObj(a)
    ensures var r := ApplyDetail(row, JObj(d), now).row;
      && r.agentPhone == ExtractPhoneNumbers(d, m).agent
      && r.clientPhone == ExtractPhoneNumbers(d, m).client
      && r.hasAudio == GetOr(d, "has_audio", JBool(false))
      && r.cost == GetOr(m, "cost", JInt(0))
      && r.terminationReason == Get(m, "termination_reason")
      && r.userId == Get(d, "user_id")
      && r.callSuccessful == GetOr(a, "call_successful", row.callSuccessful)
      && r.transcriptSummary == GetOr(a, "transcript_summary", row.transcriptSummary)
      && r.evaluationCriteriaResults ==
           (if Truthy(Get(a, "evaluation_criteria_results")) then Get(a, "evaluation_criteria_results") else row.evaluationCriteriaResults)
      && r.dataCollectionResults ==
           (if Truthy(Get(a, "data_collection_results")) then Get(a, "data_collection_results") else row.dataCollectionResults)
      && r.callDurationSecs == (if Truthy(Get(m, "call_duration_secs")) then Get(m, "call_duration_secs") else row.callDurationSecs)
      && r.startTimeUnix == (if Truthy(Get(m, "start_time_unix_secs")) then Get(m, "start_time_unix_secs") else row.startTimeUnix)
      && r.transcript == (if Truthy(Get(d, "transcript")) then Get(d, "transcript") else row.transcript)
  {
  }

  /** A detail never changes the columns the list owns, and keeps the NOT
      NULL columns set. */
  lemma DetailKeepsListColumns(row: Conversation, detail: Json, now: int)
    ensures SameListColumns(row, ApplyDetail(row, detail, now).row)
    ensures Conforms(row) ==> Conforms(ApplyDetail(row, detail, now).row)
  {
  }

  /** Applying the same detail twice gives the row applying it once does. */
  lemma DetailIdempotent(row: Conversation, detail: Json, now: int)
    ensures ApplyDetail(ApplyDetail(row, detail, now).row, detail, now) == ApplyDetail(row, detail, now)
  {
    if detail.JObj? {
      var d := detail.members;
      var meta := GetOr(d, "metadata", JObj([]));
      var analysis := GetOr(d, "analysis", JObj([]));
      if meta.JObj? && analysis.JObj? {
        var r := ApplyDetail(row, detail, now).row;
        var a := analysis.members;
        assert r.callSuccessful == GetOr(a, "call_successful", row.callSuccessful);
        assert r.transcriptSummary == GetOr(a, "transcript_summary", row.transcriptSummary);
      }
    }
  }

  /** Updating one stored row from a detail keeps one row per key and the
      NOT NULL columns set; whether the row still binds is `DetailBindable`. */
  lemma DetailKeepsTableShape(t: Table, id: string, detail: Json, now: int)
    requires TableShape(t) && id in t.rows
    ensures TableShape(Table(t.ids, t.rows[id := ApplyDetail(t.rows[id], detail, now).row]))
  {
    DetailKeepsListColumns(t.rows[id], detail, now);
  }

  /** Whether every value `_update_conversation_details` writes from
      `detail` binds, as far as the update gets: the audio flag; then cost,
      termination reason, user and phones; then the outcome and summary
      when `analysis` has them, and duration and start time when truthy. */
  predicate DetailBindable(detail: Json) {
    detail.JObj? ==>
      var d := detail.members;
      var meta := GetOr(d, "metadata", JObj([]));
      var analysis := GetOr(d, "analysis", JObj([]));
      && BindableFlag(GetOr(d, "has_audio", JBool(false)))
      && (meta.JObj? ==>
            var m := meta.members;
            var phones := ExtractPhoneNumbers(d, m);
            && BindableValue(GetOr(m, "cost", JInt(0))) && BindableValue(Get(m, "termination_reason"))
            && BindableValue(Get(d, "user_id"))
            && BindableValue(phones.agent) && BindableValue(phones.client)
            && (analysis.JObj? ==>
                  var a := analysis.members;
                  && (Find(a, "call_successful").Some? ==> BindableValue(Find(a, "call_successful").value))
                  && (Find(a, "transcript_summary").Some? ==> BindableValue(Find(a, "transcript_summary").value))
                  && (Truthy(Get(m, "call_duration_secs")) ==> BindableValue(Get(m, "call_duration_secs")))
                  && (Truthy(Get(m, "start_time_unix_secs")) ==> BindableValue(Get(m, "start_time_unix_secs")))))
  }

  /** A bindable row stays bindable under a detail exactly when the detail
      writes only values that bind; so whether a detail can be stored does
      not depend on the row it is applied to. */
  lemma DetailBindableIff(row: Conversation, detail: Json, now: int)
    requires Bindable(row)
    ensures Bindable(ApplyDetail(row, detail, now).row) <==> DetailBindable(detail)
  {
    if detail.JObj? {
      var d := detail.members;
      var meta := GetOr(d, "metadata", JObj([]));
      var analysis := GetOr(d, "analysis", JObj([]));
      var r1 := row.(hasAudio := GetOr(d, "has_audio", JBool(false)));
      if !meta.JObj? {
        assert ApplyDetail(row, detail, now).row == r1;
      } else {
        var m := meta.members;
        var r2 := MetadataColumns(r1, d, m);
        if !analysis.JObj? {
          assert ApplyDetail(row, detail, now).row == r2;
        } else {
          var a := analysis.members;
          var r3 := AnalysisColumns(r2, d, m, a, now);
          assert ApplyDetail(row, detail, now).row == r3;
          assert Bindable(r3) <==> (
            && Bindable(r2)
            && (Find(a, "call_successful").Some? ==> BindableValue(Find(a, "call_successful").value))
            && (Find(a, "transcript_summary").Some? ==> BindableValue(Find(a, "transcript_summary").value))
            && (Truthy(Get(m, "call_duration_secs")) ==> BindableValue(Get(m, "call_duration_secs")))
            && (Truthy(Get(m, "start_time_unix_secs")) ==> BindableValue(Get(m, "start_time_unix_secs"))));
        }
      }
    }
  }

  // ---------------------------------------------------------------------
  // The table as the session sees it.

  class Store {
    var ids: seq<string>
    var rows: map<string, Conversation>

    ghost predicate Valid()
      reads this
    {
      TableValid(Snapshot())
    }

    function Snapshot(): Table
      reads this
    {
      Table(ids, rows)
    }

    constructor(t: Table)
      requires TableValid(t)
      ensures Valid() && Snapshot() == t
    {
      ids := t.ids;
      rows := t.rows;
    }

    /** The session after a flush failed: what the database holds is the
        table of the last commit that went through, with the rows `saved`. */
    method Restore(saved: map<string, Conversation>)
      requires TableValid(Table(ids, saved))
      modifies this
      ensures ids == old(ids) && rows == saved
      ensures Valid()
    {
      rows := saved;
    }

    /** `session.commit()` of the pending changes `p`. */
    method Commit(p: Pending) returns (ok: bool)
      requires Valid() && PendingOver(Snapshot(), p)
      modifies this
      ensures ok == Flushable(p)
      ensures ok ==> Snapshot() == Table(old(ids) + p.newIds, p.rows)
      ensures !ok ==> Snapshot() == old(Snapshot())
      ensures Valid()
    {
      ok := Flushable(p);
      if ok {
        CommitKeepsTableValid(Snapshot(), p);
        ids := ids + p.newIds;
        rows := p.rows;
      }
    }

    /** `_update_conversation_details(conv, detail)` on the stored row `id`,
        column by column; returns whether it ran to the end. */
    method UpdateConversationDetails(id: string, detail: Json, now: int) returns (complete: bool)
      requires id in rows
      modifies this
      ensures ids == old(ids)
      ensures rows == old(rows)[id := ApplyDetail(old(rows)[id], detail, now).row]
      ensures complete == ApplyDetail(old(rows)[id], detail, now).complete
    {
      ghost var t := Snapshot();
      ghost var target := ApplyDetail(old(rows)[id], detail, now);
      if !detail.JObj? {
        return false;
      }
      var d := detail.members;
      var meta := GetOr(d, "metadata", JObj([]));
      var analysis := GetOr(d, "analysis", JObj([]));
      var row := rows[id];
      row := row.(hasAudio := GetOr(d, "has_audio", JBool(false)));
      ghost var r1 := row;
      if !meta.JObj? {
        assert target == Applied(row, false);
        rows := rows[id := row];
        return false;
      }
      var m := meta.members;
      row := MetadataColumns(row, d, m);
      ghost var r2 := row;
      if !analysis.JObj? {
        assert target == Applied(row, false);
        rows := rows[id := row];
        return false;
      }
      var a := analysis.members;
      var evalCriteria := row.evaluationCriteriaResults;
      if Truthy(Get(a, "evaluation_criteria_results")) {
        evalCriteria := Get(a, "evaluation_criteria_results");
      }
      var dataCollection := row.dataCollectionResults;
      if Truthy(Get(a, "data_collection_results")) {
        dataCollection := Get(a, "data_collection_results");
      }
      var transcript := row.transcript;
      if Truthy(Get(d, "transcript")) {
        transcript := Get(d, "transcript");
      }
      var duration := row.callDurationSecs;
      if Truthy(Get(m, "call_duration_secs")) {
        duration := Get(m, "call_duration_secs");
      }
      var startTime := row.startTimeUnix;
      if Truthy(Get(m, "start_time_unix_secs")) {
        startTime := Get(m, "start_time_unix_secs");
      }
      row := row.(callSuccessful := GetOr(a, "call_successful", row.callSuccessful),
                  transcriptSummary := GetOr(a, "transcript_summary", row.transcriptSummary),
                  evaluationCriteriaResults := evalCriteria, dataCollectionResults := dataCollection,
                  transcript := transcript, callDurationSecs := duration, startTimeUnix := startTime,
                  detailsFetched := true, fetchedAt := now);
      assert target == Applied(row, true);
      rows := rows[id := row];
      assert rows == t.rows[id := target.row];
      complete := true;
    }
  }
}
