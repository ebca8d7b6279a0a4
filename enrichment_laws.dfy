/** What the detail pass of `sync_conversations` does to the table: each
    selected row is updated from its own reply and no other, a failed
    request leaves its row as it was, the counter counts exactly the
    replies the update runs to the end on, and no pass touches the columns
    the list owns. */
module EnrichmentLaws {
  import opened JsonValue
  import opened Outcomes
  import opened ConversationStore
  import opened Enrichment

  /** A detail the update runs to the end on: it, its `metadata` and its
      `analysis` are dicts. */
  predicate Dicts(detail: Json) {
    && detail.JObj?
    && GetOr(detail.members, "metadata", JObj([])).JObj?
    && GetOr(detail.members, "analysis", JObj([])).JObj?
  }

  /** How many keys of `sel` from `i` on get a reply the update runs to the
      end on. */
  function Completed(sel: seq<string>, detailOf: DetailServer, i: nat): nat
    decreases |sel| - i
  {
    if i >= |sel| then 0
    else (if detailOf(sel[i]).Success? && Dicts(detailOf(sel[i]).value) then 1 else 0) + Completed(sel, detailOf, i + 1)
  }

  /** What the pass may leave in a selected row given its reply: the row as
      it was after a failed request; the updated row after a complete
      detail; after any other detail either the row as it was, which only
      a raising debug dump leaves, or the half-updated row. */
  predicate Outcome(before: Conversation, after: Conversation, reply: Result<Json>, now: int) {
    match reply
    case Failure(_) => after == before
    case Success(d) =>
      if Dicts(d) then after == ApplyDetail(before, d, now).row
      else (DebugRaises(d) && after == before) || after == ApplyDetail(before, d, now).row
  }

  /** One turn of the loop: the row `id` ends as `Outcome` allows; the
      counter goes up exactly on a complete detail; the stored rows become
      the working copy only when all of it binds; and the session breaks
      exactly when a batch commit meets a row that does not bind. */
  lemma EnrichOneEffect(e: Enriched, id: string, reply: Result<Json>, now: int)
    requires id in e.rows
    ensures var n := EnrichOne(e, id, reply, now);
      && Outcome(e.rows[id], n.rows[id], reply, now)
      && n.count == e.count + (if reply.Success? && Dicts(reply.value) then 1 else 0)
      && (n.saved == e.saved || (n.saved == n.rows && AllBindable(n.rows)))
      && (n.broken <==> e.broken || (n.count != e.count && n.count % 10 == 0 && !AllBindable(n.rows)))
  {
    if reply.Success? {
      DetailCompletesOnDicts(e.rows[id], reply.value, now);
    }
  }

  /** The counter at the end of the pass. */
  lemma {:induction false} EnrichFromCount(e: Enriched, sel: seq<string>, i: nat, detailOf: DetailServer, now: int)
    requires AllStored(sel, e.rows)
    ensures EnrichFrom(e, sel, i, detailOf, now).count == e.count + Completed(sel, detailOf, i)
    decreases |sel| - i
  {
    if i < |sel| {
      EnrichOneEffect(e, sel[i], detailOf(sel[i]), now);
      EnrichFromCount(EnrichOne(e, sel[i], detailOf(sel[i]), now), sel, i + 1, detailOf, now);
    }
  }

  /** The row `k` at the end of the pass from `i` on: updated once from its
      reply when it is still to be visited, as it was otherwise. */
  lemma {:induction false} EnrichFromKey(e: Enriched, sel: seq<string>, i: nat, detailOf: DetailServer, now: int,
                                         k: string)
    requires AllStored(sel, e.rows) && Distinct(sel) && i <= |sel| && k in e.rows
    ensures var f := EnrichFrom(e, sel, i, detailOf, now);
      && k in f.rows
      && (if k in sel[i..] then Outcome(e.rows[k], f.rows[k], detailOf(k), now) else f.rows[k] == e.rows[k])
    decreases |sel| - i
  {
    if i < |sel| {
      var next := EnrichOne(e, sel[i], detailOf(sel[i]), now);
      EnrichOneEffect(e, sel[i], detailOf(sel[i]), now);
      EnrichFromKey(next, sel, i + 1, detailOf, now, k);
      assert sel[i..] == [sel[i]] + sel[i + 1..];
      if k == sel[i] {
        assert k !in sel[i + 1..];
      }
    }
  }

  /** A row the pass from `i` does not visit ends as it was. */
  lemma {:induction false} EnrichFromUnvisited(e: Enriched, sel: seq<string>, i: nat, detailOf: DetailServer,
                                               now: int, k: string)
    requires AllStored(sel, e.rows) && i <= |sel| && k in e.rows && k !in sel[i..]
    ensures EnrichFrom(e, sel, i, detailOf, now).rows[k] == e.rows[k]
    decreases |sel| - i
  {
    if i < |sel| {
      var n := EnrichOne(e, sel[i], detailOf(sel[i]), now);
      assert sel[i..] == [sel[i]] + sel[i + 1..];
      EnrichFromUnvisited(n, sel, i + 1, detailOf, now, k);
    }
  }

  /** The rows a batch commit stored: each is the row as it was when the
      pass from `i` began or the row the pass leaves, and all of them bind. */
  lemma {:induction false} EnrichFromSaved(e: Enriched, sel: seq<string>, i: nat, detailOf: DetailServer, now: int)
    requires AllStored(sel, e.rows) && Distinct(sel) && i <= |sel|
    requires e.saved.Keys == e.rows.Keys && AllBindable(e.saved)
    requires forall j :: i <= j < |sel| ==> e.saved[sel[j]] == e.rows[sel[j]]
    ensures var f := EnrichFrom(e, sel, i, detailOf, now);
      && f.saved.Keys == e.rows.Keys && AllBindable(f.saved)
      && forall k :: k in e.rows ==> f.saved[k] == e.saved[k] || f.saved[k] == f.rows[k]
    decreases |sel| - i
  {
    if i < |sel| {
      var n := EnrichOne(e, sel[i], detailOf(sel[i]), now);
      var f := EnrichFrom(n, sel, i + 1, detailOf, now);
      assert EnrichFrom(e, sel, i, detailOf, now) == f;
      SavedStep(e, sel, i, detailOf(sel[i]), now);
      EnrichFromSaved(n, sel, i + 1, detailOf, now);
      SavedAfterStep(e, n, sel, i, detailOf, now);
    }
  }

  /** The first step of `EnrichFromSaved`: one turn keeps the stored rows
      bindable and equal to the working rows still to be visited. */
  lemma SavedStep(e: Enriched, sel: seq<string>, i: nat, reply: Result<Json>, now: int)
    requires AllStored(sel, e.rows) && Distinct(sel) && i < |sel|
    requires e.saved.Keys == e.rows.Keys && AllBindable(e.saved)
    requires forall j :: i <= j < |sel| ==> e.saved[sel[j]] == e.rows[sel[j]]
    ensures var n := EnrichOne(e, sel[i], reply, now);
      && n.saved.Keys == n.rows.Keys && AllBindable(n.saved)
      && (n.saved == e.saved || n.saved == n.rows)
      && forall j :: i + 1 <= j < |sel| ==> n.saved[sel[j]] == n.rows[sel[j]]
  {
    var n := EnrichOne(e, sel[i], reply, now);
    EnrichOneEffect(e, sel[i], reply, now);
    forall j | i + 1 <= j < |sel| ensures n.saved[sel[j]] == n.rows[sel[j]] {
      assert sel[j] != sel[i];
    }
  }

  /** The last step of `EnrichFromSaved`: after one turn that either kept
      the stored rows or stored the working copy, what the rest of the pass
      stores is still the rows as they were at `i` or as the pass leaves
      them. */
  lemma SavedAfterStep(e: Enriched, n: Enriched, sel: seq<string>, i: nat, detailOf: DetailServer, now: int)
    requires i < |sel| && Distinct(sel) && AllStored(sel, n.rows)
    requires n.rows.Keys == e.rows.Keys && e.saved.Keys == e.rows.Keys
    requires n.saved == e.saved || n.saved == n.rows
    requires forall k :: k in e.rows && k != sel[i] ==> n.rows[k] == e.rows[k]
    requires forall j :: i <= j < |sel| ==> e.saved[sel[j]] == e.rows[sel[j]]
    requires var f := EnrichFrom(n, sel, i + 1, detailOf, now);
      forall k :: k in n.rows ==> k in f.saved && (f.saved[k] == n.saved[k] || f.saved[k] == f.rows[k])
    ensures var f := EnrichFrom(n, sel, i + 1, detailOf, now);
      forall k :: k in e.rows ==> f.saved[k] == e.saved[k] || f.saved[k] == f.rows[k]
  {
    var f := EnrichFrom(n, sel, i + 1, detailOf, now);
    forall k | k in e.rows ensures f.saved[k] == e.saved[k] || f.saved[k] == f.rows[k] {
      if n.saved != e.saved && f.saved[k] != f.rows[k] {
        if k in sel[i + 1..] {
          var j :| i + 1 <= j < |sel| && sel[j] == k;
          assert k != sel[i];
        } else {
          EnrichFromKey(n, sel, i + 1, detailOf, now, k);
        }
      }
    }
  }

  /** No batch commit fails when the rows still to be visited bind and the
      rows the pass leaves all bind: at each commit every row is one or the
      other. */
  lemma {:induction false} EnrichFromNoBreak(e: Enriched, sel: seq<string>, i: nat, detailOf: DetailServer, now: int)
    requires AllStored(sel, e.rows) && Distinct(sel) && i <= |sel| && !e.broken
    requires forall j :: i <= j < |sel| ==> Bindable(e.rows[sel[j]])
    requires AllBindable(EnrichFrom(e, sel, i, detailOf, now).rows)
    ensures !EnrichFrom(e, sel, i, detailOf, now).broken
    decreases |sel| - i
  {
    if i < |sel| {
      var n := EnrichOne(e, sel[i], detailOf(sel[i]), now);
      assert EnrichFrom(e, sel, i, detailOf, now) == EnrichFrom(n, sel, i + 1, detailOf, now);
      EnrichOneEffect(e, sel[i], detailOf(sel[i]), now);
      StepRowsBind(e, n, sel, i, detailOf, now);
      EnrichFromNoBreak(n, sel, i + 1, detailOf, now);
    }
  }

  /** One turn of `EnrichFromNoBreak`: the working rows after it all bind,
      being either rows still to be visited, as they were, or rows the rest
      of the pass leaves alone. */
  lemma StepRowsBind(e: Enriched, n: Enriched, sel: seq<string>, i: nat, detailOf: DetailServer, now: int)
    requires i < |sel| && Distinct(sel) && AllStored(sel, n.rows) && n.rows.Keys == e.rows.Keys
    requires forall k :: k in e.rows && k != sel[i] ==> n.rows[k] == e.rows[k]
    requires forall j :: i <= j < |sel| ==> Bindable(e.rows[sel[j]])
    requires AllBindable(EnrichFrom(n, sel, i + 1, detailOf, now).rows)
    ensures AllBindable(n.rows)
    ensures forall j :: i + 1 <= j < |sel| ==> Bindable(n.rows[sel[j]])
  {
    StepPendingBind(e, n, sel, i);
    forall k | k in n.rows && k !in sel[i + 1..] ensures Bindable(n.rows[k]) {
      UnvisitedBinds(n, sel, i + 1, detailOf, now, k);
    }
  }

  /** The rows still to be visited after one turn are as they were. */
  lemma StepPendingBind(e: Enriched, n: Enriched, sel: seq<string>, i: nat)
    requires i < |sel| && Distinct(sel) && AllStored(sel, n.rows) && n.rows.Keys == e.rows.Keys
    requires forall k :: k in e.rows && k != sel[i] ==> n.rows[k] == e.rows[k]
    requires forall j :: i <= j < |sel| ==> Bindable(e.rows[sel[j]])
    ensures forall j :: i + 1 <= j < |sel| ==> Bindable(n.rows[sel[j]])
    ensures forall k :: k in sel[i + 1..] ==> Bindable(n.rows[k])
  {
    forall j | i + 1 <= j < |sel| ensures n.rows[sel[j]] == e.rows[sel[j]] {
      assert sel[j] != sel[i];
    }
    forall k | k in sel[i + 1..] ensures Bindable(n.rows[k]) {
      var j :| i + 1 <= j < |sel| && sel[j] == k;
    }
  }

  /** A row the rest of the pass leaves alone binds if the pass's rows do. */
  lemma UnvisitedBinds(e: Enriched, sel: seq<string>, i: nat, detailOf: DetailServer, now: int, k: string)
    requires AllStored(sel, e.rows) && i <= |sel| && k in e.rows && k !in sel[i..]
    requires AllBindable(EnrichFrom(e, sel, i, detailOf, now).rows)
    ensures Bindable(e.rows[k])
  {
    EnrichFromUnvisited(e, sel, i, detailOf, now, k);
  }

  /** What a selected row becomes when no reply is a complete detail, so
      that the counter stays at zero and the debug dump runs every time: a
      reply on which the dump raises leaves the row, any other the row
      `ApplyDetail` makes. */
  function Quiet(row: Conversation, reply: Result<Json>, now: int): Conversation {
    if reply.Success? && !DebugRaises(reply.value) then ApplyDetail(row, reply.value, now).row else row
  }

  /** A pass from a zero counter in which no reply is a complete detail
      counts nothing, commits nothing, and leaves each visited row as
      `Quiet` says. */
  lemma {:induction false} QuietPass(e: Enriched, sel: seq<string>, i: nat, detailOf: DetailServer, now: int)
    requires AllStored(sel, e.rows) && Distinct(sel) && i <= |sel| && e.count == 0
    requires forall j :: i <= j < |sel| ==> !(detailOf(sel[j]).Success? && Dicts(detailOf(sel[j]).value))
    ensures var f := EnrichFrom(e, sel, i, detailOf, now);
      && f.count == 0 && f.broken == e.broken && f.saved == e.saved
      && forall k :: k in e.rows ==> f.rows[k] == if k in sel[i..] then Quiet(e.rows[k], detailOf(k), now) else e.rows[k]
    decreases |sel| - i
  {
    if i < |sel| {
      var id := sel[i];
      var n := EnrichOne(e, id, detailOf(id), now);
      assert EnrichFrom(e, sel, i, detailOf, now) == EnrichFrom(n, sel, i + 1, detailOf, now);
      QuietStep(e, id, detailOf(id), now);
      QuietPass(n, sel, i + 1, detailOf, now);
      assert sel[i..] == [id] + sel[i + 1..];
      assert id !in sel[i + 1..];
    }
  }

  /** One turn of `QuietPass`: the row becomes what `Quiet` says and nothing
      else changes. */
  lemma QuietStep(e: Enriched, id: string, reply: Result<Json>, now: int)
    requires id in e.rows && e.count == 0 && !(reply.Success? && Dicts(reply.value))
    ensures var n := EnrichOne(e, id, reply, now);
      && n.count == 0 && n.broken == e.broken && n.saved == e.saved
      && n.rows == e.rows[id := Quiet(e.rows[id], reply, now)]
  {
    if reply.Success? {
      DetailCompletesOnDicts(e.rows[id], reply.value, now);
    }
  }

  /** The detail pass over distinct stored keys: the table keeps its keys;
      a selected row ends as its reply allows, a row not selected as it was;
      every row keeps the columns the list owns and the NOT NULL columns,
      and a fetched mark is never cleared; a selected row whose reply is a
      complete detail is marked as fetched and so is not selected again. */
  lemma DetailPass(t: Table, sel: seq<string>, detailOf: DetailServer, now: int, k: string)
    requires AllStored(sel, t.rows) && Distinct(sel) && k in t.rows
    ensures var e := EnrichAll(t, sel, detailOf, now);
      && e.rows.Keys == t.rows.Keys
      && (if k in sel then Outcome(t.rows[k], e.rows[k], detailOf(k), now) else e.rows[k] == t.rows[k])
      && SameListColumns(t.rows[k], e.rows[k])
      && (Conforms(t.rows[k]) ==> Conforms(e.rows[k]))
      && (t.rows[k].detailsFetched ==> e.rows[k].detailsFetched)
      && (k in sel && detailOf(k).Success? && Dicts(detailOf(k).value) ==>
            e.rows[k].detailsFetched && e.rows[k].fetchedAt == now)
  {
    EnrichFromKey(Enriched(t.rows, 0, t.rows, false), sel, 0, detailOf, now, k);
    assert sel[0..] == sel;
    var row := t.rows[k];
    if k in sel && detailOf(k).Success? {
      DetailKeepsListColumns(row, detailOf(k).value, now);
      DetailCompletesOnDicts(row, detailOf(k).value, now);
    }
  }

  /** What a pass that cannot flush leaves stored: each row as it was or as
      the pass left it, all of them binding. */
  lemma DetailPassSaved(t: Table, sel: seq<string>, detailOf: DetailServer, now: int)
    requires TableValid(t) && AllStored(sel, t.rows) && Distinct(sel)
    ensures var e := EnrichAll(t, sel, detailOf, now);
      && e.saved.Keys == t.rows.Keys && AllBindable(e.saved)
      && forall k :: k in t.rows ==> e.saved[k] == t.rows[k] || e.saved[k] == e.rows[k]
  {
    EnrichFromSaved(Enriched(t.rows, 0, t.rows, false), sel, 0, detailOf, now);
  }

  /** The batch commits never decide the outcome: the commit after the loop
      goes through exactly when every row the pass leaves binds. */
  lemma FlushedIffBindable(t: Table, sel: seq<string>, detailOf: DetailServer, now: int)
    requires TableValid(t) && AllStored(sel, t.rows) && Distinct(sel)
    ensures Flushed(EnrichAll(t, sel, detailOf, now)) <==> AllBindable(EnrichAll(t, sel, detailOf, now).rows)
  {
    if AllBindable(EnrichAll(t, sel, detailOf, now).rows) {
      EnrichFromNoBreak(Enriched(t.rows, 0, t.rows, false), sel, 0, detailOf, now);
    }
  }

  /** When every reply that arrives can be stored, the pass flushes: failed
      requests and malformed documents never stop it. */
  lemma DetailPassFlushes(t: Table, sel: seq<string>, detailOf: DetailServer, now: int)
    requires TableValid(t) && AllStored(sel, t.rows) && Distinct(sel)
    requires forall k :: k in sel && detailOf(k).Success? ==> DetailBindable(detailOf(k).value)
    ensures Flushed(EnrichAll(t, sel, detailOf, now))
  {
    var e := EnrichAll(t, sel, detailOf, now);
    forall k | k in e.rows ensures Bindable(e.rows[k]) {
      DetailPass(t, sel, detailOf, now, k);
      if k in sel && detailOf(k).Success? {
        DetailBindableIff(t.rows[k], detailOf(k).value, now);
      }
    }
    FlushedIffBindable(t, sel, detailOf, now);
  }

  /** `details_count` is the number of selected keys whose reply is a
      complete detail. */
  lemma DetailCount(t: Table, sel: seq<string>, detailOf: DetailServer, now: int)
    requires AllStored(sel, t.rows)
    ensures EnrichAll(t, sel, detailOf, now).count == Completed(sel, detailOf, 0)
    ensures Completed(sel, detailOf, 0) <= |sel|
  {
    EnrichFromCount(Enriched(t.rows, 0, t.rows, false), sel, 0, detailOf, now);
    CompletedBound(sel, detailOf, 0);
  }

  lemma {:induction false} CompletedBound(sel: seq<string>, detailOf: DetailServer, i: nat)
    ensures Completed(sel, detailOf, i) <= if i <= |sel| then |sel| - i else 0
    decreases |sel| - i
  {
    if i < |sel| {
      CompletedBound(sel, detailOf, i + 1);
    }
  }
}
