/** What the upsert loop of `sync_conversations` does to each key over a
    whole list: a committed row takes each summary column from the last
    listed item that carries it, a new key gets the row of its item, the
    insert counter counts exactly the items under keys not committed yet,
    and a second pass of the same list over the committed result changes
    nothing and stores nothing. */
module ReconcileLaws {
  import opened JsonValue
  import opened Outcomes
  import opened Calendar
  import opened ConversationStore
  import opened Reconcile

  /** An item the loop body gets through without raising: a dict whose
      truthy id, if any, has a month and can be bound. */
  predicate Admissible(item: Json) {
    && item.JObj?
    && var ms := item.members;
       var cid := Get(ms, "conversation_id");
       Truthy(cid) ==> MonthPartition(GetOr(ms, "start_time_unix_secs", JInt(0))).Success? && IdKey(cid).Success?
  }

  /** The error the loop body raises on an item that is not admissible. */
  function ItemError(item: Json): Error {
    if !item.JObj? then NotADict
    else
      var month := MonthPartition(GetOr(item.members, "start_time_unix_secs", JInt(0)));
      if month.Failure? then month.error else Unbindable
  }

  /** The key an admissible item is upserted under; None for an item the
      loop skips or raises on. */
  function KeyOf(item: Json): (r: Option<string>)
    ensures r.Some? ==> Admissible(item)
  {
    if !Admissible(item) then None
    else
      var cid := Get(item.members, "conversation_id");
      if Truthy(cid) then Some(IdKey(cid).value) else None
  }

  /** The loop body fails on an item exactly when the item is not admissible. */
  lemma ItemFailsIffInadmissible(t: Table, p: Pending, item: Json, agentId: string, now: int)
    ensures ReconcileItem(t, p, item, agentId, now).Success? <==> Admissible(item)
    ensures !Admissible(item) ==> ReconcileItem(t, p, item, agentId, now) == Failure(ItemError(item))
    ensures KeyOf(item).None? && Admissible(item) ==> ReconcileItem(t, p, item, agentId, now) == Success(p)
    ensures (item.JObj? && Get(item.members, "conversation_id").JInt?
             && !FitsInt64(Get(item.members, "conversation_id").n)) ==> !Admissible(item)
  {
  }

  /** The member lists of the items of `items` upserted under `k`, in order. */
  function Listed(items: seq<Json>, k: string): seq<seq<(string, Json)>> {
    if items == [] then []
    else
      var last := items[|items| - 1];
      Listed(items[..|items| - 1], k) + (if KeyOf(last) == Some(k) then [last.members] else [])
  }

  /** How many items of `items` are upserted under a key `t` does not hold. */
  function CountNew(t: Table, items: seq<Json>): nat {
    if items == [] then 0
    else
      var last := items[|items| - 1];
      CountNew(t, items[..|items| - 1]) + (if KeyOf(last).Some? && KeyOf(last).value !in t.rows then 1 else 0)
  }

  lemma ListedSnoc(items: seq<Json>, item: Json, k: string)
    ensures Listed(items + [item], k) == Listed(items, k) + (if KeyOf(item) == Some(k) then [item.members] else [])
  {
    assert (items + [item])[..|items|] == items;
  }

  lemma CountNewSnoc(t: Table, items: seq<Json>, item: Json)
    ensures CountNew(t, items + [item]) ==
      CountNew(t, items) + (if KeyOf(item).Some? && KeyOf(item).value !in t.rows then 1 else 0)
  {
    assert (items + [item])[..|items|] == items;
  }

  // ---------------------------------------------------------------------
  // The summary columns under a run of refreshes.

  /** The committed row after the refreshes of `mss`, in order. */
  function RefreshAll(row: Conversation, mss: seq<seq<(string, Json)>>): Conversation {
    if mss == [] then row else Refresh(RefreshAll(row, mss[..|mss| - 1]), mss[|mss| - 1])
  }

  /** `key` from the last of `mss` that has it, else `d`. */
  function LastOr(mss: seq<seq<(string, Json)>>, key: string, d: Json): Json {
    if mss == [] then d else GetOr(mss[|mss| - 1], key, LastOr(mss[..|mss| - 1], key, d))
  }

  predicate Mentions(mss: seq<seq<(string, Json)>>, key: string) {
    mss != [] && (Find(mss[|mss| - 1], key).Some? || Mentions(mss[..|mss| - 1], key))
  }

  lemma {:induction false} LastOrShape(mss: seq<seq<(string, Json)>>, key: string, x: Json, y: Json)
    ensures Mentions(mss, key) ==> LastOr(mss, key, x) == LastOr(mss, key, y)
    ensures !Mentions(mss, key) ==> LastOr(mss, key, x) == x
  {
    if mss != [] {
      LastOrShape(mss[..|mss| - 1], key, x, y);
    }
  }

  /** Taking the last value twice is taking it once. */
  lemma LastOrAbsorbs(mss: seq<seq<(string, Json)>>, key: string, d: Json)
    ensures LastOr(mss, key, LastOr(mss, key, d)) == LastOr(mss, key, d)
  {
    LastOrShape(mss, key, LastOr(mss, key, d), d);
  }

  /** After a run of refreshes each summary column holds the value of the
      last item that has it (the stored one when none has), `tool_names`
      that of the last item, and every other column is as it was. */
  lemma {:induction false} RefreshAllColumns(row: Conversation, mss: seq<seq<(string, Json)>>)
    ensures RefreshAll(row, mss) == row.(
      status := LastOr(mss, "status", row.status),
      callSuccessful := LastOr(mss, "call_successful", row.callSuccessful),
      callDurationSecs := LastOr(mss, "call_duration_secs", row.callDurationSecs),
      messageCount := LastOr(mss, "message_count", row.messageCount),
      transcriptSummary := LastOr(mss, "transcript_summary", row.transcriptSummary),
      callSummaryTitle := LastOr(mss, "call_summary_title", row.callSummaryTitle),
      mainLanguage := LastOr(mss, "main_language", row.mainLanguage),
      direction := LastOr(mss, "direction", row.direction),
      rating := LastOr(mss, "rating", row.rating),
      toolNames := if mss == [] then row.toolNames else GetOr(mss[|mss| - 1], "tool_names", JArr([])))
  {
    if mss != [] {
      RefreshAllColumns(row, mss[..|mss| - 1]);
    }
  }

  /** Refreshing a row again with the same items changes nothing. */
  lemma RefreshAllIdempotent(row: Conversation, mss: seq<seq<(string, Json)>>)
    ensures RefreshAll(RefreshAll(row, mss), mss) == RefreshAll(row, mss)
  {
    RefreshAllColumns(row, mss);
    RefreshAllColumns(RefreshAll(row, mss), mss);
    LastOrAbsorbs(mss, "status", row.status);
    LastOrAbsorbs(mss, "call_successful", row.callSuccessful);
    LastOrAbsorbs(mss, "call_duration_secs", row.callDurationSecs);
    LastOrAbsorbs(mss, "message_count", row.messageCount);
    LastOrAbsorbs(mss, "transcript_summary", row.transcriptSummary);
    LastOrAbsorbs(mss, "call_summary_title", row.callSummaryTitle);
    LastOrAbsorbs(mss, "main_language", row.mainLanguage);
    LastOrAbsorbs(mss, "direction", row.direction);
    LastOrAbsorbs(mss, "rating", row.rating);
  }

  /** Refreshing a storable row with items that left another row storable
      leaves it storable: each summary column ends as the other row's or as
      it was. */
  lemma RefreshAllMix(a: Conversation, b: Conversation, mss: seq<seq<(string, Json)>>)
    requires Conforms(a) && Bindable(a)
    requires Conforms(RefreshAll(b, mss)) && Bindable(RefreshAll(b, mss))
    ensures Conforms(RefreshAll(a, mss)) && Bindable(RefreshAll(a, mss))
  {
    RefreshAllColumns(a, mss);
    RefreshAllColumns(b, mss);
    LastOrShape(mss, "status", a.status, b.status);
    LastOrShape(mss, "call_successful", a.callSuccessful, b.callSuccessful);
    LastOrShape(mss, "call_duration_secs", a.callDurationSecs, b.callDurationSecs);
    LastOrShape(mss, "message_count", a.messageCount, b.messageCount);
    LastOrShape(mss, "transcript_summary", a.transcriptSummary, b.transcriptSummary);
    LastOrShape(mss, "call_summary_title", a.callSummaryTitle, b.callSummaryTitle);
    LastOrShape(mss, "main_language", a.mainLanguage, b.mainLanguage);
    LastOrShape(mss, "direction", a.direction, b.direction);
    LastOrShape(mss, "rating", a.rating, b.rating);
  }

  /** The row inserted for the item with members `ms`. */
  function Inserted(ms: seq<(string, Json)>, agentId: string, now: int): Conversation {
    var startTs := GetOr(ms, "start_time_unix_secs", JInt(0));
    var month := MonthPartition(startTs);
    NewRow(ms, agentId, startTs, if month.Success? then month.value else "unknown", now)
  }

  /** Refreshing a freshly inserted row with its own item changes nothing. */
  lemma RefreshKeepsInserted(ms: seq<(string, Json)>, agentId: string, now: int)
    ensures Refresh(Inserted(ms, agentId, now), ms) == Inserted(ms, agentId, now)
  {
  }

  // ---------------------------------------------------------------------
  // The loop, key by key.

  /** What the pending state holds under one key: the working row, if
      any, and how many times the key is listed as new. */
  datatype KeyView = KeyView(row: Option<Conversation>, inserts: nat)

  function ViewOf(p: Pending, k: string): KeyView {
    KeyView(if k in p.rows then Some(p.rows[k]) else None, multiset(p.newIds)[k])
  }

  /** What key `k` holds after the items `done`: a committed row refreshed
      by the items under `k`, never listed as new; otherwise nothing when no
      item was under `k`, else the row of the last such item, listed as new
      once per such item. */
  function Expected(t: Table, done: seq<Json>, k: string, agentId: string, now: int): KeyView {
    var l := Listed(done, k);
    if k in t.rows then KeyView(Some(RefreshAll(t.rows[k], l)), 0)
    else if l == [] then KeyView(None, 0)
    else KeyView(Some(Inserted(l[|l| - 1], agentId, now)), |l|)
  }

  lemma KeyTracksStart(t: Table, k: string, agentId: string, now: int)
    ensures ViewOf(Pending(t.rows, []), k) == Expected(t, [], k, agentId, now)
  {
  }

  /** The inserted row carries the month of its start time, is not marked
      as fetched, and was fetched now. */
  lemma InsertedColumns(ms: seq<(string, Json)>, agentId: string, now: int)
    requires MonthPartition(GetOr(ms, "start_time_unix_secs", JInt(0))).Success?
    ensures var row := Inserted(ms, agentId, now);
      && MonthPartition(row.startTimeUnix) == Success(row.monthPartition)
      && row.startTimeUnix == GetOr(ms, "start_time_unix_secs", JInt(0))
      && row.agentId == GetOr(ms, "agent_id", JStr(agentId))
      && !row.detailsFetched && row.fetchedAt == now
  {
  }

  /** Every item listed under a key has a month. */
  lemma {:induction false} ListedHaveMonths(done: seq<Json>, k: string)
    ensures forall ms :: ms in Listed(done, k) ==> MonthPartition(GetOr(ms, "start_time_unix_secs", JInt(0))).Success?
  {
    if done != [] {
      ListedHaveMonths(done[..|done| - 1], k);
    }
  }

  /** What one turn of the loop does: nothing for a skipped item, a refresh
      of the working row under a committed key, an insert otherwise. */
  lemma ItemEffect(t: Table, p: Pending, item: Json, agentId: string, now: int)
    requires ReconcileItem(t, p, item, agentId, now).Success?
    ensures var q := ReconcileItem(t, p, item, agentId, now).value;
      if KeyOf(item).None? then q == p
      else
        var key := KeyOf(item).value;
        if key in t.rows then
          q == p.(rows := p.rows[key := Refresh(if key in p.rows then p.rows[key] else t.rows[key], item.members)])
        else q == Pending(p.rows[key := Inserted(item.members, agentId, now)], p.newIds + [key])
  {
  }

  lemma RefreshAllSnoc(row: Conversation, l: seq<seq<(string, Json)>>, ms: seq<(string, Json)>)
    ensures RefreshAll(row, l + [ms]) == Refresh(RefreshAll(row, l), ms)
  {
    assert (l + [ms])[..|l|] == l;
  }

  lemma KeyStepOther(t: Table, done: seq<Json>, p: Pending, q: Pending, item: Json, k: string,
                     agentId: string, now: int)
    requires ViewOf(p, k) == Expected(t, done, k, agentId, now) && KeyOf(item) != Some(k)
    requires ViewOf(q, k) == ViewOf(p, k)
    ensures ViewOf(q, k) == Expected(t, done + [item], k, agentId, now)
  {
    ListedSnoc(done, item, k);
    assert Listed(done + [item], k) == Listed(done, k);
  }

  lemma KeyStepRefresh(t: Table, done: seq<Json>, p: Pending, item: Json, k: string, agentId: string, now: int)
    requires ViewOf(p, k) == Expected(t, done, k, agentId, now) && KeyOf(item) == Some(k) && k in t.rows
    ensures ViewOf(p.(rows := p.rows[k := Refresh(p.rows[k], item.members)]), k) == Expected(t, done + [item], k, agentId, now)
  {
    ListedSnoc(done, item, k);
    RefreshAllSnoc(t.rows[k], Listed(done, k), item.members);
  }

  lemma KeyStepInsert(t: Table, done: seq<Json>, p: Pending, item: Json, k: string, agentId: string, now: int)
    requires ViewOf(p, k) == Expected(t, done, k, agentId, now) && KeyOf(item) == Some(k) && k !in t.rows
    ensures ViewOf(Pending(p.rows[k := Inserted(item.members, agentId, now)], p.newIds + [k]), k)
            == Expected(t, done + [item], k, agentId, now)
  {
    ListedSnoc(done, item, k);
    var l := Listed(done, k);
    assert (l + [item.members])[|l|] == item.members;
  }

  /** One turn of the loop keeps the account of every key. */
  lemma KeyTracksStep(t: Table, done: seq<Json>, p: Pending, item: Json, done': seq<Json>, k: string,
                      agentId: string, now: int)
    requires ViewOf(p, k) == Expected(t, done, k, agentId, now) && done' == done + [item]
    requires ReconcileItem(t, p, item, agentId, now).Success?
    ensures ViewOf(ReconcileItem(t, p, item, agentId, now).value, k) == Expected(t, done', k, agentId, now)
  {
    ItemEffect(t, p, item, agentId, now);
    var q := ReconcileItem(t, p, item, agentId, now).value;
    if KeyOf(item) == Some(k) {
      if k in t.rows {
        KeyStepRefresh(t, done, p, item, k, agentId, now);
      } else {
        KeyStepInsert(t, done, p, item, k, agentId, now);
      }
    } else {
      KeyStepOther(t, done, p, q, item, k, agentId, now);
    }
  }

  /** A run that goes through keeps the account of every key. */
  lemma {:induction false} KeyTracksRun(t: Table, items: seq<Json>, i: nat, p: Pending, k: string,
                                        agentId: string, now: int)
    requires i <= |items| && ViewOf(p, k) == Expected(t, items[..i], k, agentId, now)
    requires ReconcileFrom(t, items, i, p, agentId, now).error == None
    ensures ViewOf(ReconcileFrom(t, items, i, p, agentId, now).pending, k) == Expected(t, items, k, agentId, now)
    decreases |items| - i
  {
    if i == |items| {
      assert items[..i] == items;
    } else {
      KeyTracksStep(t, items[..i], p, items[i], items[..i + 1], k, agentId, now);
      KeyTracksRun(t, items, i + 1, ReconcileItem(t, p, items[i], agentId, now).value, k, agentId, now);
    }
  }

  /** The loop ends without an error exactly when every item from `i` on is
      admissible. */
  lemma {:induction false} CleanIffAdmissible(t: Table, items: seq<Json>, i: nat, p: Pending, agentId: string, now: int)
    requires i <= |items|
    ensures ReconcileFrom(t, items, i, p, agentId, now).error == None <==>
            forall j :: i <= j < |items| ==> Admissible(items[j])
    decreases |items| - i
  {
    if i < |items| {
      ItemFailsIffInadmissible(t, p, items[i], agentId, now);
      if Admissible(items[i]) {
        CleanIffAdmissible(t, items, i + 1, ReconcileItem(t, p, items[i], agentId, now).value, agentId, now);
      }
    }
  }

  lemma CountStep(t: Table, done: seq<Json>, p: Pending, item: Json, done': seq<Json>, agentId: string, now: int)
    requires |p.newIds| == CountNew(t, done) && done' == done + [item]
    requires ReconcileItem(t, p, item, agentId, now).Success?
    ensures |ReconcileItem(t, p, item, agentId, now).value.newIds| == CountNew(t, done')
  {
    ItemEffect(t, p, item, agentId, now);
    CountNewSnoc(t, done, item);
  }

  /** `stored` counts exactly the items under keys not committed. */
  lemma {:induction false} StoredCountsNewItems(t: Table, items: seq<Json>, i: nat, p: Pending, agentId: string,
                                                now: int)
    requires i <= |items| && |p.newIds| == CountNew(t, items[..i])
    requires ReconcileFrom(t, items, i, p, agentId, now).error == None
    ensures |ReconcileFrom(t, items, i, p, agentId, now).pending.newIds| == CountNew(t, items)
    decreases |items| - i
  {
    if i == |items| {
      assert items[..i] == items;
    } else {
      CountStep(t, items[..i], p, items[i], items[..i + 1], agentId, now);
      StoredCountsNewItems(t, items, i + 1, ReconcileItem(t, p, items[i], agentId, now).value, agentId, now);
    }
  }

  // ---------------------------------------------------------------------
  // The whole run.

  lemma {:induction false} DistinctOnce(s: seq<string>, k: string)
    requires Distinct(s)
    ensures multiset(s)[k] <= 1
  {
    if s != [] {
      assert s == [s[0]] + s[1..];
      DistinctOnce(s[1..], k);
      if s[0] == k {
        assert k !in s[1..];
      }
    }
  }

  /** The view of every key after a clean run from no pending changes. */
  lemma RunView(t: Table, items: seq<Json>, agentId: string, now: int, k: string)
    requires Reconciliation(t, items, agentId, now).error == None
    ensures ViewOf(Reconciliation(t, items, agentId, now).pending, k) == Expected(t, items, k, agentId, now)
  {
    assert items[..0] == [];
    KeyTracksStart(t, k, agentId, now);
    KeyTracksRun(t, items, 0, Pending(t.rows, []), k, agentId, now);
  }

  /** Key `k` holds after a second run what it held after the first. */
  lemma KeyIdempotent(t: Table, items: seq<Json>, agentId: string, now: int, t1: Table, agentId': string,
                      now': int, k: string)
    requires Reconciliation(t, items, agentId, now).error == None
    requires Reconciliation(t1, items, agentId', now').error == None
    requires Commit(t, Reconciliation(t, items, agentId, now).pending) == Success(t1)
    ensures ViewOf(Reconciliation(t1, items, agentId', now').pending, k) == ViewOf(Pending(t1.rows, []), k)
  {
    var p1 := Reconciliation(t, items, agentId, now).pending;
    RunView(t, items, agentId, now, k);
    RunView(t1, items, agentId', now', k);
    var l := Listed(items, k);
    if k in t.rows {
      RefreshAllIdempotent(t.rows[k], l);
    } else if l != [] {
      DistinctOnce(p1.newIds, k);
      assert |l| == 1 && l[..0] == [];
      assert t1.rows[k] == Inserted(l[0], agentId, now);
      assert RefreshAll(t1.rows[k], l) == Refresh(t1.rows[k], l[0]);
      RefreshKeepsInserted(l[0], agentId, now);
    }
  }

  /** A second run of the same list against the table the first one
      committed raises nothing, inserts nothing and changes no row, so its
      commit gives back that table. */
  lemma ReconcileIdempotent(t: Table, items: seq<Json>, agentId: string, now: int, t1: Table, agentId': string,
                            now': int)
    requires TableValid(t)
    requires Reconciliation(t, items, agentId, now).error == None
    requires Commit(t, Reconciliation(t, items, agentId, now).pending) == Success(t1)
    ensures Reconciliation(t1, items, agentId', now') == Reconciled(Pending(t1.rows, []), None)
    ensures Commit(t1, Pending(t1.rows, [])) == Success(t1)
  {
    RerunLeavesPending(t, items, agentId, now, t1, agentId', now');
    CommitKeepsTableValid(t, Reconciliation(t, items, agentId, now).pending);
    assert t1.ids + [] == t1.ids;
  }

  /** The first half of `ReconcileIdempotent`: the rerun leaves every
      committed row as it was and inserts nothing. */
  lemma RerunLeavesPending(t: Table, items: seq<Json>, agentId: string, now: int, t1: Table, agentId': string,
                           now': int)
    requires Reconciliation(t, items, agentId, now).error == None
    requires Commit(t, Reconciliation(t, items, agentId, now).pending) == Success(t1)
    ensures Reconciliation(t1, items, agentId', now') == Reconciled(Pending(t1.rows, []), None)
  {
    CleanIffAdmissible(t, items, 0, Pending(t.rows, []), agentId, now);
    CleanIffAdmissible(t1, items, 0, Pending(t1.rows, []), agentId', now');
    var p2 := Reconciliation(t1, items, agentId', now').pending;
    forall k
      ensures (k in p2.rows <==> k in t1.rows) && (k in t1.rows ==> p2.rows[k] == t1.rows[k])
      ensures multiset(p2.newIds)[k] == 0
    {
      KeyIdempotent(t, items, agentId, now, t1, agentId', now', k);
    }
    assert p2.rows == t1.rows;
    assert multiset(p2.newIds) == multiset{};
    assert |multiset(p2.newIds)| == |p2.newIds|;
  }

  /** A clean run against any table that already holds every key the run
      left pending raises nothing and inserts nothing. */
  lemma RerunInsertsNothing(t: Table, items: seq<Json>, agentId: string, now: int, t2: Table, agentId': string,
                            now': int)
    requires Reconciliation(t, items, agentId, now).error == None
    requires forall k :: k in Reconciliation(t, items, agentId, now).pending.rows ==> k in t2.rows
    ensures Reconciliation(t2, items, agentId', now').error == None
    ensures Reconciliation(t2, items, agentId', now').pending.newIds == []
  {
    CleanIffAdmissible(t, items, 0, Pending(t.rows, []), agentId, now);
    CleanIffAdmissible(t2, items, 0, Pending(t2.rows, []), agentId', now');
    var p2 := Reconciliation(t2, items, agentId', now').pending;
    forall k ensures multiset(p2.newIds)[k] == 0 {
      RunView(t, items, agentId, now, k);
      RunView(t2, items, agentId', now', k);
    }
    assert multiset(p2.newIds) == multiset{};
    assert |multiset(p2.newIds)| == |p2.newIds|;
  }

  /** A second run of the same list, against the table the first commit
      left after any edit that kept its keys and left it valid, raises
      nothing, inserts nothing, and its commit goes through: every row it
      refreshes ends storable. */
  lemma RerunCommits(t: Table, items: seq<Json>, agentId: string, now: int, t1: Table, t2: Table,
                     agentId': string, now': int)
    requires TableValid(t)
    requires Reconciliation(t, items, agentId, now).error == None
    requires Commit(t, Reconciliation(t, items, agentId, now).pending) == Success(t1)
    requires TableValid(t2) && t2.rows.Keys == t1.rows.Keys
    ensures var rc2 := Reconciliation(t2, items, agentId', now');
      && rc2.error == None && rc2.pending.newIds == []
      && Commit(t2, rc2.pending).Success?
  {
    RerunInsertsNothing(t, items, agentId, now, t2, agentId', now');
    ReconcileIdempotent(t, items, agentId, now, t1, agentId', now');
    CommitKeepsTableValid(t, Reconciliation(t, items, agentId, now).pending);
    var p2 := Reconciliation(t2, items, agentId', now').pending;
    forall k | k in p2.rows ensures Conforms(p2.rows[k]) && Bindable(p2.rows[k]) {
      ReconcileCommittedRow(t2, items, agentId', now', k);
      ReconcileCommittedRow(t1, items, agentId', now', k);
      RefreshAllMix(t2.rows[k], t1.rows[k], Listed(items, k));
    }
  }

  /** The columns the upsert owns on a committed row. */
  predicate SameOutsideSummary(a: Conversation, b: Conversation) {
    a == b.(status := a.status, callSuccessful := a.callSuccessful, callDurationSecs := a.callDurationSecs,
            messageCount := a.messageCount, transcriptSummary := a.transcriptSummary,
            callSummaryTitle := a.callSummaryTitle, mainLanguage := a.mainLanguage, direction := a.direction,
            rating := a.rating, toolNames := a.toolNames)
  }

  /** After a clean run a committed row has been refreshed by the items
      under its key and nothing else: its agent, start time, month
      partition, detail columns and fetched mark are as they were. */
  lemma ReconcileCommittedRow(t: Table, items: seq<Json>, agentId: string, now: int, k: string)
    requires Reconciliation(t, items, agentId, now).error == None && k in t.rows
    ensures var p := Reconciliation(t, items, agentId, now).pending;
      && k in p.rows && k !in p.newIds
      && p.rows[k] == RefreshAll(t.rows[k], Listed(items, k))
      && SameOutsideSummary(p.rows[k], t.rows[k])
  {
    RunView(t, items, agentId, now, k);
    RefreshAllColumns(t.rows[k], Listed(items, k));
  }

  /** After a clean run a key that was not committed is present exactly when
      some item was under it; it holds the row inserted for the last such
      item, not fetched, with the month of its start time, and is listed as
      new once per such item. */
  lemma ReconcileNewRow(t: Table, items: seq<Json>, agentId: string, now: int, k: string)
    requires Reconciliation(t, items, agentId, now).error == None && k !in t.rows
    ensures var p := Reconciliation(t, items, agentId, now).pending;
      var l := Listed(items, k);
      && (k in p.rows <==> l != [])
      && multiset(p.newIds)[k] == |l|
      && (k in p.rows ==>
            && p.rows[k] == Inserted(l[|l| - 1], agentId, now)
            && MonthPartition(p.rows[k].startTimeUnix) == Success(p.rows[k].monthPartition)
            && !p.rows[k].detailsFetched && p.rows[k].fetchedAt == now)
  {
    RunView(t, items, agentId, now, k);
    var l := Listed(items, k);
    if l != [] {
      ListedHaveMonths(items, k);
      InsertedColumns(l[|l| - 1], agentId, now);
    }
  }

  /** The index of the first item from `i` on that is not admissible, or
      the length of the list. */
  function FirstBad(items: seq<Json>, i: nat): (r: nat)
    requires i <= |items|
    ensures i <= r <= |items|
    decreases |items| - i
  {
    if i == |items| || !Admissible(items[i]) then i else FirstBad(items, i + 1)
  }

  /** The loop stops at the first item that is not admissible, with that
      item's error, and what it leaves pending is what the items before it
      leave: the exception handler commits exactly those. */
  lemma {:induction false} StopsAtFirstBad(t: Table, items: seq<Json>, i: nat, p: Pending, agentId: string, now: int)
    requires i <= |items|
    ensures var b := FirstBad(items, i);
      var r := ReconcileFrom(t, items, i, p, agentId, now);
      && r.pending == ReconcileFrom(t, items[..b], i, p, agentId, now).pending
      && r.error == if b < |items| then Some(ItemError(items[b])) else None
    decreases |items| - i
  {
    var b := FirstBad(items, i);
    if i == |items| {
      assert items[..b] == items;
    } else {
      ItemFailsIffInadmissible(t, p, items[i], agentId, now);
      if Admissible(items[i]) {
        var next := ReconcileItem(t, p, items[i], agentId, now).value;
        StopsAtFirstBad(t, items, i + 1, next, agentId, now);
        assert items[..b][i] == items[i];
      }
    }
  }
}
