/** What the counters `_compute_criteria_stats` returns mean: for every
    criterion, `total` is the number of verdicts about it, `pass` and `fail`
    split them, the name is the first `crit_id` it was seen under, every
    criterion appears once, in the order of first sight, and the totals add
    up to the number of verdicts read. */
module CriteriaLaws {
  import opened JsonValue
  import opened Outcomes
  import opened ConversationStore
  import opened CriteriaStats

  /** The number of verdicts about `k`. */
  function Occurrences(es: seq<Entry>, k: Key): nat {
    if es == [] then 0
    else Occurrences(es[..|es| - 1], k) + (if es[|es| - 1].key == k then 1 else 0)
  }

  /** The number of passing verdicts about `k`. */
  function Passes(es: seq<Entry>, k: Key): nat {
    if es == [] then 0
    else Passes(es[..|es| - 1], k) + (if es[|es| - 1].key == k && es[|es| - 1].passed then 1 else 0)
  }

  /** The number of failing verdicts about `k`. */
  function Failures(es: seq<Entry>, k: Key): nat {
    if es == [] then 0
    else Failures(es[..|es| - 1], k) + (if es[|es| - 1].key == k && !es[|es| - 1].passed then 1 else 0)
  }

  /** The index of the first verdict about `k`, or the length when there is
      none. */
  function FirstIndex(es: seq<Entry>, k: Key): (r: nat)
    ensures r <= |es|
    ensures r < |es| ==> es[r].key == k
    ensures forall j :: 0 <= j < r ==> es[j].key != k
  {
    if es == [] then 0 else if es[0].key == k then 0 else 1 + FirstIndex(es[1..], k)
  }

  /** The sum of the `total` counters. */
  function TotalOf(ss: seq<Stat>): nat {
    if ss == [] then 0 else TotalOf(ss[..|ss| - 1]) + ss[|ss| - 1].total
  }

  lemma FirstIndexIs(es: seq<Entry>, k: Key, r: nat)
    requires r <= |es| && (r < |es| ==> es[r].key == k) && forall j :: 0 <= j < r ==> es[j].key != k
    ensures FirstIndex(es, k) == r
  {
  }

  lemma SlotIs(t: Tally, k: Key, r: nat)
    requires r <= |t| && (r < |t| ==> t[r].0 == k) && forall j :: 0 <= j < r ==> t[j].0 != k
    ensures Slot(t, k) == r
  {
  }

  /** A verdict appended: the first verdict about `k` stays where it was,
      or is the new one. */
  lemma FirstIndexSnoc(es: seq<Entry>, e: Entry, k: Key)
    ensures FirstIndex(es + [e], k) ==
              if FirstIndex(es, k) < |es| then FirstIndex(es, k)
              else if e.key == k then |es| else |es| + 1
  {
    var f := FirstIndex(es, k);
    var es2 := es + [e];
    if f < |es| {
      FirstIndexIs(es2, k, f);
    } else if e.key == k {
      FirstIndexIs(es2, k, |es|);
    } else {
      FirstIndexIs(es2, k, |es| + 1);
    }
  }

  /** One verdict counted: every criterion keeps its place, a new one goes
      last, and only the counters of the verdict's criterion move. */
  lemma AddSlot(t: Tally, e: Entry, k: Key)
    ensures var t2 := Add(t, e); var i := Slot(t, k);
      && |t2| == (if Slot(t, e.key) < |t| then |t| else |t| + 1)
      && (forall j :: 0 <= j < |t| ==> t2[j].0 == t[j].0)
      && (e.key != k ==> (Slot(t2, k) < |t2| <==> i < |t|) && (i < |t| ==> Slot(t2, k) == i && t2[i] == t[i]))
      && (e.key == k ==>
            && Slot(t2, k) == i < |t2|
            && t2[i].1 == Bump(if i < |t| then t[i].1 else Stat(e.name, 0, 0, 0), e.passed))
  {
    var t2 := Add(t, e);
    var i := Slot(t, k);
    assert forall j :: 0 <= j < |t| ==> t2[j].0 == t[j].0;
    if i < |t| {
      SlotIs(t2, k, i);
    } else if e.key == k {
      SlotIs(t2, k, i);
    } else {
      SlotIs(t2, k, |t2|);
    }
  }

  lemma CountsSnoc(es: seq<Entry>, e: Entry, k: Key)
    ensures Occurrences(es + [e], k) == Occurrences(es, k) + (if e.key == k then 1 else 0)
    ensures Passes(es + [e], k) == Passes(es, k) + (if e.key == k && e.passed then 1 else 0)
    ensures Failures(es + [e], k) == Failures(es, k) + (if e.key == k && !e.passed then 1 else 0)
  {
    assert (es + [e])[..|es|] == es;
  }

  /** The entry of criterion `k` in the tally, if any. */
  function EntryOf(t: Tally, k: Key): Option<Stat> {
    if Slot(t, k) < |t| then Some(t[Slot(t, k)].1) else None
  }

  /** The entry the verdicts `es` call for: none when no verdict is about
      `k`; otherwise named after the first of them, with `total` the number
      of verdicts about `k` and `pass` and `fail` the number of passing and
      failing ones. */
  function Expected(es: seq<Entry>, k: Key): Option<Stat> {
    var f := FirstIndex(es, k);
    if f < |es| then Some(Stat(es[f].name, Passes(es, k), Failures(es, k), Occurrences(es, k))) else None
  }

  /** The entry after counting `e` on top of `o`. */
  function Counted(o: Option<Stat>, e: Entry): Stat {
    Bump(if o.Some? then o.value else Stat(e.name, 0, 0, 0), e.passed)
  }

  lemma AddEntry(t: Tally, e: Entry, k: Key)
    ensures EntryOf(Add(t, e), k) == if e.key == k then Some(Counted(EntryOf(t, k), e)) else EntryOf(t, k)
  {
    AddSlot(t, e, k);
  }

  lemma ExpectedSnoc(es: seq<Entry>, e: Entry, k: Key)
    ensures Expected(es + [e], k) == if e.key == k then Some(Counted(Expected(es, k), e)) else Expected(es, k)
  {
    FirstIndexSnoc(es, e, k);
    CountsSnoc(es, e, k);
    VerdictsSplit(es, k);
    if FirstIndex(es, k) < |es| {
      assert (es + [e])[FirstIndex(es, k)] == es[FirstIndex(es, k)];
    }
  }

  /** The entry of criterion `k` after counting `es` is the one `es` calls
      for. */
  lemma {:induction false} AddAllKey(es: seq<Entry>, k: Key)
    ensures EntryOf(AddAll([], es), k) == Expected(es, k)
  {
    if es != [] {
      var es' := es[..|es| - 1];
      var e := es[|es| - 1];
      assert es == es' + [e];
      AddAllKey(es', k);
      ExpectedSnoc(es', e, k);
      AddEntry(AddAll([], es'), e, k);
    }
  }

  /** The criteria of the result in the order of their first verdict, each
      once. */
  lemma {:induction false} AddAllOrder(es: seq<Entry>)
    ensures var t := AddAll([], es);
      && (forall i :: 0 <= i < |t| ==> FirstIndex(es, t[i].0) < |es|)
      && (forall i, j :: 0 <= i < j < |t| ==> FirstIndex(es, t[i].0) < FirstIndex(es, t[j].0))
  {
    if es != [] {
      var es' := es[..|es| - 1];
      var e := es[|es| - 1];
      assert es == es' + [e];
      AddAllOrder(es');
      var t' := AddAll([], es');
      var t := AddAll([], es);
      AddSlot(t', e, e.key);
      AddAllKey(es', e.key);
      VerdictsSplit(es', e.key);
      forall i | 0 <= i < |t'|
        ensures FirstIndex(es, t[i].0) == FirstIndex(es', t'[i].0) < |es'|
      {
        FirstIndexSnoc(es', e, t'[i].0);
      }
      if |t| > |t'| {
        FirstIndexSnoc(es', e, e.key);
        assert t[|t'|].0 == e.key;
      }
    }
  }

  /** Each criterion appears once in the result. */
  lemma AddAllDistinct(es: seq<Entry>)
    ensures var t := AddAll([], es);
      forall i, j :: 0 <= i < j < |t| ==> t[i].0 != t[j].0
  {
    AddAllOrder(es);
  }

  lemma {:induction false} TotalOfUpdate(ss: seq<Stat>, i: nat, s: Stat)
    requires i < |ss|
    ensures TotalOf(ss[i := s]) + ss[i].total == TotalOf(ss) + s.total
  {
    var n := |ss| - 1;
    assert ss[i := s][..n] == if i < n then ss[..n][i := s] else ss[..n];
    if i < n {
      TotalOfUpdate(ss[..n], i, s);
    }
  }

  /** The totals add up to the number of verdicts counted. */
  lemma {:induction false} TotalsCountVerdicts(es: seq<Entry>)
    ensures TotalOf(Stats(AddAll([], es))) == |es|
  {
    if es != [] {
      var es' := es[..|es| - 1];
      var e := es[|es| - 1];
      TotalsCountVerdicts(es');
      var t' := AddAll([], es');
      var i := Slot(t', e.key);
      if i < |t'| {
        assert Stats(Add(t', e)) == Stats(t')[i := Bump(t'[i].1, e.passed)];
        TotalOfUpdate(Stats(t'), i, Bump(t'[i].1, e.passed));
      } else {
        assert Stats(Add(t', e))[..|t'|] == Stats(t');
      }
    }
  }

  /** Every verdict about `k` is a pass or a fail. */
  lemma {:induction false} VerdictsSplit(es: seq<Entry>, k: Key)
    ensures Occurrences(es, k) == Passes(es, k) + Failures(es, k)
    ensures Occurrences(es, k) > 0 <==> FirstIndex(es, k) < |es|
  {
    if es != [] {
      var es' := es[..|es| - 1];
      VerdictsSplit(es', k);
      assert es == es' + [es[|es| - 1]];
      FirstIndexSnoc(es', es[|es| - 1], k);
    }
  }

  /** The result of `_compute_criteria_stats`, when it is returned: one
      entry per criterion some verdict is about, the one its verdicts call
      for, in the order of their first verdicts. */
  lemma CriteriaStatsEntries(rows: seq<Conversation>)
    ensures AllEntries(rows).Success? ==>
      var es := AllEntries(rows).value;
      var t := AddAll([], es);
      var ss := CriteriaStatsOf(rows).value;
      && |ss| == |t|
      && (forall i :: 0 <= i < |t| ==> Expected(es, t[i].0) == Some(ss[i]))
      && (forall k :: Expected(es, k).Some? ==> exists i :: 0 <= i < |t| && t[i].0 == k)
      && (forall i, j :: 0 <= i < j < |t| ==> FirstIndex(es, t[i].0) < FirstIndex(es, t[j].0))
  {
    if AllEntries(rows).Success? {
      var es := AllEntries(rows).value;
      var t := AddAll([], es);
      AddAllOrder(es);
      forall i | 0 <= i < |t|
        ensures Expected(es, t[i].0) == Some(t[i].1)
      {
        AddAllKey(es, t[i].0);
        SlotIs(t, t[i].0, i);
      }
      forall k | Expected(es, k).Some?
        ensures exists i :: 0 <= i < |t| && t[i].0 == k
      {
        AddAllKey(es, k);
        assert t[Slot(t, k)].0 == k;
      }
    }
  }

  /** The result of `_compute_criteria_stats`: it is returned exactly when
      the verdicts can all be read; each entry then has `pass + fail ==
      total` and a positive total, and the totals add up to the number of
      verdicts read. */
  lemma CriteriaStatsBalanced(rows: seq<Conversation>)
    ensures CriteriaStatsOf(rows).Success? <==> AllEntries(rows).Success?
    ensures CriteriaStatsOf(rows).Success? ==>
      var ss := CriteriaStatsOf(rows).value;
      && (forall i :: 0 <= i < |ss| ==> ss[i].pass + ss[i].fail == ss[i].total > 0)
      && TotalOf(ss) == |AllEntries(rows).value|
  {
    if AllEntries(rows).Success? {
      var es := AllEntries(rows).value;
      var t := AddAll([], es);
      forall i | 0 <= i < |t|
        ensures t[i].1.pass + t[i].1.fail == t[i].1.total > 0
      {
        var k := t[i].0;
        AddAllKey(es, k);
        AddAllDistinct(es);
        SlotIs(t, k, i);
        VerdictsSplit(es, k);
      }
      TotalsCountVerdicts(es);
    }
  }

  /** An item of the list form that is read to the end: a dict whose id
      can be a key. */
  predicate Readable(item: Json) {
    item.JObj? && HashKey(ItemId(item.members)).Some?
  }

  /** The item at `j` is the first that is not a dict, and every item
      before it is read to the end. */
  predicate AbortsAt(items: seq<Json>, j: int) {
    0 <= j < |items| && !items[j].JObj? && forall i :: 0 <= i < j ==> Readable(items[i])
  }

  /** The list form raises exactly when an item that is not a dict comes
      before any item whose id is a list or a dict. */
  lemma {:induction false} ListEntriesFails(items: seq<Json>)
    ensures ListEntries(items).Failure? <==> exists j :: AbortsAt(items, j)
    ensures ListEntries(items).Failure? ==> ListEntries(items).error == NotADict
  {
    if items != [] {
      ListEntriesFails(items[1..]);
      if Readable(items[0]) {
        forall j | AbortsAt(items[1..], j)
          ensures AbortsAt(items, j + 1)
        {
        }
        forall j | AbortsAt(items, j)
          ensures j > 0 && AbortsAt(items[1..], j - 1)
        {
        }
      } else if items[0].JObj? {
        forall j | 0 <= j < |items|
          ensures !AbortsAt(items, j)
        {
        }
      } else {
        assert AbortsAt(items, 0);
      }
    }
  }

  /** `_compute_criteria_stats` raises exactly when some row's verdicts
      cannot be read. */
  lemma {:induction false} AllEntriesFails(rows: seq<Conversation>)
    ensures AllEntries(rows).Failure? <==>
      exists n :: 0 <= n < |rows| && RowEntries(rows[n].evaluationCriteriaResults).Failure?
  {
    if rows != [] {
      AllEntriesFails(rows[1..]);
      if RowEntries(rows[0].evaluationCriteriaResults).Success? {
        if exists n :: 0 <= n < |rows| && RowEntries(rows[n].evaluationCriteriaResults).Failure? {
          var n :| 0 <= n < |rows| && RowEntries(rows[n].evaluationCriteriaResults).Failure?;
          assert rows[1..][n - 1] == rows[n];
        }
      }
    }
  }
}
