/** What `_compute_daily_trends` promises: one entry per day on which a
    counted conversation started, in strictly increasing date order, each
    holding the number of conversations that started that day, how many of
    them succeeded and failed, and the sum of their costs; or the exception
    of the first row that cannot be read. */
module DailyTrendsLaws {
  import opened JsonValue
  import opened Outcomes
  import opened ConversationStore
  import opened DailyTrends

  /** `<` on strings is a strict total order. */
  lemma {:induction false} BelowIrreflexive(a: string)
    ensures !Below(a, a)
  {
    if a != [] {
      BelowIrreflexive(a[1..]);
    }
  }

  lemma {:induction false} BelowTotal(a: string, b: string)
    ensures a == b || Below(a, b) || Below(b, a)
  {
    if a != [] && b != [] && a[0] == b[0] {
      BelowTotal(a[1..], b[1..]);
      if a[1..] == b[1..] {
        assert a == [a[0]] + a[1..] && b == [b[0]] + b[1..];
      }
    }
  }

  lemma {:induction false} BelowAsymmetric(a: string, b: string)
    ensures !(Below(a, b) && Below(b, a))
  {
    if a != [] && b != [] && a[0] == b[0] {
      BelowAsymmetric(a[1..], b[1..]);
    }
  }

  lemma {:induction false} BelowTransitive(a: string, b: string, c: string)
    requires Below(a, b) && Below(b, c)
    ensures Below(a, c)
  {
    if a != [] && a[0] == b[0] && b[0] == c[0] {
      BelowTransitive(a[1..], b[1..], c[1..]);
    }
  }

  /** Every element is below every later one. */
  predicate Ascending(s: seq<string>) {
    forall i, j :: 0 <= i < j < |s| ==> Below(s[i], s[j])
  }

  /** Inserting a new element keeps a list ascending. */
  lemma {:induction false} InsertAscending(s: seq<string>, x: string)
    requires Ascending(s) && x !in s
    ensures Ascending(Insert(s, x))
  {
    if s != [] {
      if !Below(s[0], x) {
        BelowTotal(s[0], x);
        forall j | 0 <= j < |s|
          ensures Below(x, s[j])
        {
          if j > 0 {
            BelowTransitive(x, s[0], s[j]);
          }
        }
      } else {
        InsertAscending(s[1..], x);
        var r := Insert(s[1..], x);
        forall j | 0 <= j < |r|
          ensures Below(s[0], r[j])
        {
          assert r[j] in multiset(s[1..]) + multiset{x};
          if r[j] != x {
            assert r[j] in s[1..];
          }
        }
      }
    }
  }

  /** `sorted` of distinct strings is strictly ascending. */
  lemma {:induction false} SortAscending(s: seq<string>)
    requires Distinct(s)
    ensures Ascending(Sort(s))
  {
    if s != [] {
      assert Distinct(s[1..]) by {
        forall i, j | 0 <= i < j < |s[1..]|
          ensures s[1..][i] != s[1..][j]
        {
          assert s[1..][i] == s[i + 1] && s[1..][j] == s[j + 1];
        }
      }
      SortAscending(s[1..]);
      assert s[0] !in multiset(Sort(s[1..]));
      InsertAscending(Sort(s[1..]), s[0]);
    }
  }

  /** The row started on day `k` and is counted there. */
  predicate StartedOn(c: Conversation, k: string) {
    Truthy(c.startTimeUnix) && DayOf(c.startTimeUnix) == Success(k)
  }

  /** How many rows started on day `k`. */
  function Started(rows: seq<Conversation>, k: string): nat {
    if rows == [] then 0
    else Started(rows[..|rows| - 1], k) + (if StartedOn(rows[|rows| - 1], k) then 1 else 0)
  }

  /** How many rows started on day `k` with `call_successful` "success". */
  function Succeeded(rows: seq<Conversation>, k: string): nat {
    if rows == [] then 0
    else
      var c := rows[|rows| - 1];
      Succeeded(rows[..|rows| - 1], k) + (if StartedOn(c, k) && c.callSuccessful == JStr("success") then 1 else 0)
  }

  /** How many rows started on day `k` with `call_successful` "failure". */
  function Failed(rows: seq<Conversation>, k: string): nat {
    if rows == [] then 0
    else
      var c := rows[|rows| - 1];
      Failed(rows[..|rows| - 1], k) + (if StartedOn(c, k) && c.callSuccessful == JStr("failure") then 1 else 0)
  }

  /** The costs of the rows that started on day `k`, added up. */
  function Spent(rows: seq<Conversation>, k: string): int {
    if rows == [] then 0
    else
      var c := rows[|rows| - 1];
      Spent(rows[..|rows| - 1], k) + (if StartedOn(c, k) && CostOf(c.cost).Success? then CostOf(c.cost).value else 0)
  }

  /** The entry day `k` should have: none when no row started on it. */
  function Expected(rows: seq<Conversation>, k: string): Option<Day> {
    if Started(rows, k) == 0 then None else Some(Counts(rows, k))
  }

  /** The four counters of day `k`. */
  function Counts(rows: seq<Conversation>, k: string): Day {
    Day(k, Started(rows, k), Succeeded(rows, k), Failed(rows, k), Spent(rows, k))
  }

  function DayEntry(m: DayMap, k: string): Option<Day> {
    if k in m.days then Some(m.days[k]) else None
  }

  /** A row that can be read adds to its own day and to no other. */
  lemma RowCallDay(c: Conversation, k: string)
    requires RowCall(c).Success?
    ensures RowCall(c).value.Some? <==> Truthy(c.startTimeUnix)
    ensures RowCall(c).value.Some? ==>
      && (StartedOn(c, k) <==> RowCall(c).value.value.date == k)
      && RowCall(c).value.value.success == (c.callSuccessful == JStr("success"))
      && RowCall(c).value.value.failed == (c.callSuccessful == JStr("failure"))
      && CostOf(c.cost) == Success(RowCall(c).value.value.cost)
  {
  }

  /** Counting one call changes the entry of its own day only. */
  lemma TallyDay(m: DayMap, call: Call, k: string)
    ensures DayEntry(Tally(m, call), k) ==
      if call.date != k then DayEntry(m, k)
      else Some(Bump(if k in m.days then m.days[k] else Day(k, 0, 0, 0, 0), call))
  {
  }

  /** The counters of day `k` after one more row. */
  lemma ExpectedSnoc(rows: seq<Conversation>, k: string)
    requires rows != [] && RowCall(rows[|rows| - 1]).Success?
    ensures var c := rows[|rows| - 1];
      Expected(rows, k) ==
        if !StartedOn(c, k) then Expected(rows[..|rows| - 1], k)
        else
          var before := Expected(rows[..|rows| - 1], k);
          Some(Bump(if before.Some? then before.value else Day(k, 0, 0, 0, 0), RowCall(c).value.value))
  {
    var c := rows[|rows| - 1];
    if StartedOn(c, k) {
      RowCallDay(c, k);
      CountersOn(rows, k, RowCall(c).value.value);
    } else {
      CountersOff(rows, k);
    }
  }

  /** A row that did not start on day `k` leaves its counters alone. */
  lemma CountersOff(rows: seq<Conversation>, k: string)
    requires rows != [] && !StartedOn(rows[|rows| - 1], k)
    ensures Expected(rows, k) == Expected(rows[..|rows| - 1], k)
  {
    var init := rows[..|rows| - 1];
    assert Started(rows, k) == Started(init, k);
    assert Succeeded(rows, k) == Succeeded(init, k);
    assert Failed(rows, k) == Failed(init, k);
    assert Spent(rows, k) == Spent(init, k);
  }

  /** A row that started on day `k` adds its call to the counters of that
      day. */
  lemma CountersOn(rows: seq<Conversation>, k: string, call: Call)
    requires rows != [] && StartedOn(rows[|rows| - 1], k)
    requires call.date == k && call.success == (rows[|rows| - 1].callSuccessful == JStr("success"))
    requires call.failed == (rows[|rows| - 1].callSuccessful == JStr("failure"))
    requires CostOf(rows[|rows| - 1].cost) == Success(call.cost)
    ensures var before := Expected(rows[..|rows| - 1], k);
      Expected(rows, k) == Some(Bump(if before.Some? then before.value else Day(k, 0, 0, 0, 0), call))
  {
    var init := rows[..|rows| - 1];
    CountsOn(rows, k, call);
    if Started(init, k) == 0 {
      NothingOnEmptyDay(init, k);
      assert Counts(init, k) == Day(k, 0, 0, 0, 0);
    }
  }

  lemma CountsOn(rows: seq<Conversation>, k: string, call: Call)
    requires rows != [] && StartedOn(rows[|rows| - 1], k)
    requires call.date == k && call.success == (rows[|rows| - 1].callSuccessful == JStr("success"))
    requires call.failed == (rows[|rows| - 1].callSuccessful == JStr("failure"))
    requires CostOf(rows[|rows| - 1].cost) == Success(call.cost)
    ensures Started(rows, k) > 0 && Counts(rows, k) == Bump(Counts(rows[..|rows| - 1], k), call)
  {
    var init := rows[..|rows| - 1];
    assert Started(rows, k) == Started(init, k) + 1;
    assert Succeeded(rows, k) == Succeeded(init, k) + (if call.success then 1 else 0);
    assert Failed(rows, k) == Failed(init, k) + (if call.failed then 1 else 0);
    assert Spent(rows, k) == Spent(init, k) + call.cost;
  }

  /** No counter of a day on which no row started is above zero. */
  lemma {:induction false} NothingOnEmptyDay(rows: seq<Conversation>, k: string)
    requires Started(rows, k) == 0
    ensures Succeeded(rows, k) == 0 && Failed(rows, k) == 0 && Spent(rows, k) == 0
  {
    if rows != [] {
      NothingOnEmptyDay(rows[..|rows| - 1], k);
    }
  }

  /** The fold, day by day: `day_map[k]` holds exactly what the rows that
      started on day `k` add up to, and there is no entry for a day on which
      no row started. */
  lemma {:induction false} TalliedDay(rows: seq<Conversation>, k: string)
    requires Tallied(rows).Success?
    ensures DayEntry(Tallied(rows).value, k) == Expected(rows, k)
  {
    if rows != [] {
      var init, c := rows[..|rows| - 1], rows[|rows| - 1];
      TalliedDay(init, k);
      RowCallDay(c, k);
      ExpectedSnoc(rows, k);
      var m := Tallied(init).value;
      match RowCall(c)
      case Success(None) =>
      case Success(Some(call)) =>
        TallyDay(m, call, k);
    }
  }

  /** Every day holds its own date; a successful day map lists each date
      with the counters of that day. */
  lemma DayHoldsItsDate(rows: seq<Conversation>, k: string)
    requires Tallied(rows).Success? && k in Tallied(rows).value.days
    ensures Expected(rows, k) == Some(Tallied(rows).value.days[k])
    ensures Tallied(rows).value.days[k].date == k
  {
    TalliedDay(rows, k);
  }

  /** The result is in strictly increasing date order, so no date appears
      twice. */
  lemma DailyTrendsSorted(rows: seq<Conversation>)
    requires DailyTrendsOf(rows).Success?
    ensures var r := DailyTrendsOf(rows).value;
      forall i, j :: 0 <= i < j < |r| ==> Below(r[i].date, r[j].date)
  {
    var m := Tallied(rows).value;
    var order := Sort(m.dates);
    SortAscending(m.dates);
    forall i | 0 <= i < |order|
      ensures DailyTrendsOf(rows).value[i].date == order[i]
    {
      assert order[i] in multiset(m.dates);
      DayHoldsItsDate(rows, order[i]);
    }
  }

  /** Each entry of the result is a day on which some row started, holding
      how many rows started that day, how many succeeded and failed, and
      their costs added up; and every day on which a row started has an
      entry. */
  lemma DailyTrendsDays(rows: seq<Conversation>)
    requires DailyTrendsOf(rows).Success?
    ensures var r := DailyTrendsOf(rows).value;
      && (forall i :: 0 <= i < |r| ==> Expected(rows, r[i].date) == Some(r[i]))
      && (forall k :: Started(rows, k) > 0 ==> exists i :: 0 <= i < |r| && r[i].date == k)
  {
    var m := Tallied(rows).value;
    var order := Sort(m.dates);
    var r := DailyTrendsOf(rows).value;
    forall i | 0 <= i < |r|
      ensures Expected(rows, r[i].date) == Some(r[i])
    {
      assert order[i] in multiset(m.dates);
      DayHoldsItsDate(rows, order[i]);
    }
    forall k | Started(rows, k) > 0
      ensures exists i :: 0 <= i < |r| && r[i].date == k
    {
      TalliedDay(rows, k);
      assert k in multiset(order);
      var i :| 0 <= i < |order| && order[i] == k;
      DayHoldsItsDate(rows, k);
      assert r[i].date == k;
    }
  }

  /** A conversation is counted as a success or a failure, never both. */
  lemma {:induction false} VerdictsWithinTotal(rows: seq<Conversation>, k: string)
    ensures Succeeded(rows, k) + Failed(rows, k) <= Started(rows, k)
  {
    if rows != [] {
      VerdictsWithinTotal(rows[..|rows| - 1], k);
    }
  }

  /** The row the run stops at. */
  predicate FailsAt(rows: seq<Conversation>, i: int, e: Error) {
    && 0 <= i < |rows|
    && RowCall(rows[i]) == Failure(e)
    && forall j :: 0 <= j < i ==> RowCall(rows[j]).Success?
  }

  /** The function raises exactly when some row cannot be read, and then
      with the exception of the first such row. */
  lemma {:induction false} TalliedFails(rows: seq<Conversation>)
    ensures Tallied(rows).Success? <==> forall i :: 0 <= i < |rows| ==> RowCall(rows[i]).Success?
    ensures Tallied(rows).Failure? ==> exists i :: FailsAt(rows, i, Tallied(rows).error)
  {
    if rows != [] {
      var init, c := rows[..|rows| - 1], rows[|rows| - 1];
      TalliedFails(init);
      assert forall j :: 0 <= j < |init| ==> rows[j] == init[j];
      if Tallied(init).Failure? {
        var i :| FailsAt(init, i, Tallied(init).error);
        assert FailsAt(rows, i, Tallied(rows).error);
      } else if RowCall(c).Failure? {
        assert FailsAt(rows, |rows| - 1, Tallied(rows).error);
      }
    }
  }

  /** `_compute_daily_trends` raises exactly when some row's start time is
      truthy but not a number, falls outside the years 1 to 9999, or its
      cost is truthy but not a number; then with the first such row's
      exception. */
  lemma DailyTrendsFails(rows: seq<Conversation>)
    ensures DailyTrendsOf(rows).Success? <==> forall i :: 0 <= i < |rows| ==> RowCall(rows[i]).Success?
    ensures DailyTrendsOf(rows).Failure? ==> exists i :: FailsAt(rows, i, DailyTrendsOf(rows).error)
  {
    TalliedFails(rows);
  }
}
