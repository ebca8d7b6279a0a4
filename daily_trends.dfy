/** `_compute_daily_trends`: per UTC day, how many stored conversations
    started on it, how many of them succeeded and failed, and what they
    cost, one entry per day in date order. The average duration of a day is
    not part of this model. */
module DailyTrends {
  import opened JsonValue
  import opened Outcomes
  import opened Calendar
  import opened ConversationStore

  /** One entry of the result, without `avg_duration`. */
  datatype Day = Day(date: string, total: nat, success: nat, failed: nat, cost: int)

  /** What one conversation with a truthy start time adds to its day. */
  datatype Call = Call(date: string, success: bool, failed: bool, cost: int)

  /** Python's `<` on strings: code point by code point, a proper prefix
      before the longer string. */
  predicate Below(a: string, b: string) {
    if a == [] then b != []
    else b != [] && (a[0] < b[0] || (a[0] == b[0] && Below(a[1..], b[1..])))
  }

  /** `utcfromtimestamp(ts).strftime("%Y-%m-%d")` */
  function DayOf(ts: Json): Result<string> {
    match Seconds(ts)
    case Failure(e) => Failure(e)
    case Success(t) =>
      match DateOfTimestamp(t)
      case Failure(e) => Failure(e)
      case Success(d) => Success(FormatDate(d))
  }

  /** What `+= c.cost` adds: nothing for a falsy cost, the number otherwise
      (True as 1); a string, a list or a dict cannot be added to a number. */
  function CostOf(cost: Json): Result<int> {
    if !Truthy(cost) then Success(0)
    else match cost
      case JInt(n) => Success(n)
      case JBool(_) => Success(1)
      case _ => Failure(NotANumber)
  }

  /** What one row contributes: nothing when its start time is falsy, its
      day, verdict and cost otherwise, or the exception reading them raises. */
  function RowCall(c: Conversation): Result<Option<Call>> {
    if !Truthy(c.startTimeUnix) then Success(None)
    else match DayOf(c.startTimeUnix)
      case Failure(e) => Failure(e)
      case Success(date) =>
        match CostOf(c.cost)
        case Failure(e) => Failure(e)
        case Success(n) =>
          Success(Some(Call(date, c.callSuccessful == JStr("success"), c.callSuccessful == JStr("failure"), n)))
  }

  /** `day_map`: its dates in insertion order and the counters under each. */
  datatype DayMap = DayMap(dates: seq<string>, days: map<string, Day>)

  /** One call counted: its day is added with zero counters on first sight,
      then `total`, `success` or `failed`, and `cost` go up. */
  function Tally(m: DayMap, c: Call): DayMap {
    var d := if c.date in m.days then m.days[c.date] else Day(c.date, 0, 0, 0, 0);
    DayMap(if c.date in m.days then m.dates else m.dates + [c.date], m.days[c.date := Bump(d, c)])
  }

  function Bump(d: Day, c: Call): Day {
    Day(d.date, d.total + 1, d.success + (if c.success then 1 else 0), d.failed + (if c.failed then 1 else 0), d.cost + c.cost)
  }

  /** `day_map` after the loop over `rows`, or the first exception. Its
      dates are distinct and are exactly the days it holds. */
  function Tallied(rows: seq<Conversation>): (r: Result<DayMap>)
    ensures r.Success? ==> Distinct(r.value.dates) && forall k :: k in r.value.dates <==> k in r.value.days
    ensures r.Success? ==> |r.value.dates| <= |rows|
  {
    if rows == [] then Success(DayMap([], map[]))
    else match Tallied(rows[..|rows| - 1])
      case Failure(e) => Failure(e)
      case Success(m) => Step(m, rows[|rows| - 1])
  }

  /** `day_map` after one more row, or the exception the row raises. */
  function Step(m: DayMap, c: Conversation): Result<DayMap> {
    match RowCall(c)
    case Failure(e) => Failure(e)
    case Success(None) => Success(m)
    case Success(Some(call)) => Success(Tally(m, call))
  }

  /** `x` placed before the first element not below it. */
  function Insert(s: seq<string>, x: string): (r: seq<string>)
    ensures multiset(r) == multiset(s) + multiset{x}
  {
    if s == [] then [x]
    else if !Below(s[0], x) then [x] + s
    else
      assert s == [s[0]] + s[1..];
      [s[0]] + Insert(s[1..], x)
  }

  /** `sorted(keys)` */
  function Sort(s: seq<string>): (r: seq<string>)
    ensures multiset(r) == multiset(s)
  {
    if s == [] then []
    else
      assert s == [s[0]] + s[1..];
      Insert(Sort(s[1..]), s[0])
  }

  /** What `_compute_daily_trends(rows)` returns, or the exception that
      escapes it. */
  function DailyTrendsOf(rows: seq<Conversation>): (r: Result<seq<Day>>)
    ensures r.Success? <==> Tallied(rows).Success?
    ensures r.Success? ==> |r.value| <= |rows|
  {
    match Tallied(rows)
    case Failure(e) => Failure(e)
    case Success(m) => Success(Listed(m))
  }

  /** `result`: the counters of each day, the dates in sorted order. */
  function Listed(m: DayMap): (r: seq<Day>)
    requires forall k :: k in m.dates <==> k in m.days
    ensures |r| == |m.dates|
  {
    var order := Sort(m.dates);
    seq(|order|, i requires 0 <= i < |order| =>
      assert order[i] in multiset(m.dates);
      m.days[order[i]])
  }

  /** A row that raises ends the fold with its exception. */
  lemma {:induction false} TalliedFailsFrom(rows: seq<Conversation>, n: nat, e: Error)
    requires n < |rows| && Tallied(rows[..n]).Success? && Step(Tallied(rows[..n]).value, rows[n]) == Failure(e)
    ensures Tallied(rows) == Failure(e)
    decreases |rows| - n
  {
    assert rows[..n + 1][..n] == rows[..n];
    if n + 1 < |rows| {
      TalliedFailsAfter(rows, n + 1, e);
    } else {
      assert rows[..n + 1] == rows;
    }
  }

  lemma {:induction false} TalliedFailsAfter(rows: seq<Conversation>, m: nat, e: Error)
    requires 0 < m <= |rows| && Tallied(rows[..m]) == Failure(e)
    ensures Tallied(rows) == Failure(e)
    decreases |rows| - m
  {
    if m < |rows| {
      assert rows[..m + 1][..m] == rows[..m];
      TalliedFailsAfter(rows, m + 1, e);
    } else {
      assert rows[..m] == rows;
    }
  }

  /** The body of the loop for one row. */
  method CountRow(dates: seq<string>, days: map<string, Day>, c: Conversation) returns (r: Result<DayMap>)
    ensures r == Step(DayMap(dates, days), c)
  {
    if !Truthy(c.startTimeUnix) {
      return Success(DayMap(dates, days));
    }
    var date := DayOf(c.startTimeUnix);
    if date.Failure? {
      return Failure(date.error);
    }
    r := CountOnDay(dates, days, date.value, c);
  }

  /** The counters of the day `k` updated for a conversation that started
      on it. */
  method CountOnDay(dates: seq<string>, days: map<string, Day>, k: string, c: Conversation) returns (r: Result<DayMap>)
    ensures r == match CostOf(c.cost)
      case Failure(e) => Failure(e)
      case Success(n) =>
        Success(Tally(DayMap(dates, days), Call(k, c.callSuccessful == JStr("success"), c.callSuccessful == JStr("failure"), n)))
  {
    var dates', days' := dates, days;
    if k !in days' {
      days' := days'[k := Day(k, 0, 0, 0, 0)];
      dates' := dates' + [k];
    }
    var d := days'[k];
    d := d.(total := d.total + 1);
    if c.callSuccessful == JStr("success") {
      d := d.(success := d.success + 1);
    } else if c.callSuccessful == JStr("failure") {
      d := d.(failed := d.failed + 1);
    }
    if Truthy(c.cost) {
      match c.cost {
        case JInt(x) =>
          d := d.(cost := d.cost + x);
        case JBool(_) =>
          d := d.(cost := d.cost + 1);
        case _ =>
          return Failure(NotANumber);
      }
    }
    assert days'[k := d] == days[k := d];
    r := Success(DayMap(dates', days'[k := d]));
  }

  /** `_compute_daily_trends` */
  method ComputeDailyTrends(rows: seq<Conversation>) returns (r: Result<seq<Day>>)
    ensures r == DailyTrendsOf(rows)
  {
    var dates: seq<string> := [];
    var days: map<string, Day> := map[];
    var n := 0;
    while n < |rows|
      invariant n <= |rows|
      invariant Tallied(rows[..n]) == Success(DayMap(dates, days))
    {
      assert rows[..n + 1][..n] == rows[..n];
      var next := CountRow(dates, days, rows[n]);
      if next.Failure? {
        TalliedFailsFrom(rows, n, next.error);
        return Failure(next.error);
      }
      dates, days := next.value.dates, next.value.days;
      n := n + 1;
    }
    assert rows[..n] == rows;
    var out := ListDays(dates, days);
    r := Success(out);
  }

  /** The loop over `sorted(day_map.keys())` that builds the result. */
  method ListDays(dates: seq<string>, days: map<string, Day>) returns (out: seq<Day>)
    requires forall k :: k in dates <==> k in days
    ensures out == Listed(DayMap(dates, days))
  {
    var order := Sort(dates);
    forall j | 0 <= j < |order|
      ensures order[j] in days
    {
      assert order[j] in multiset(dates);
    }
    out := [];
    for i := 0 to |order|
      invariant |out| == i
      invariant forall j :: 0 <= j < i ==> out[j] == days[order[j]]
    {
      out := out + [days[order[i]]];
    }
  }
}
