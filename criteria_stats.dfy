/** `_compute_criteria_stats`: the pass, fail and total counters of every
    evaluation criterion over a list of stored conversations, one entry per
    criterion in the order the criteria are first seen. */
module CriteriaStats {
  import opened JsonValue
  import opened Outcomes
  import opened ConversationStore

  /** A dict key up to Python's key equality: `True` is the key `1` and
      `False` the key `0`. */
  datatype Key = KNone | KInt(n: int) | KStr(s: string)

  /** The key a `crit_id` is stored under; None for a list or a dict, which
      `crit_id not in criteria_map` rejects with a TypeError. */
  function HashKey(id: Json): Option<Key> {
    match id
    case JNull => Some(KNone)
    case JBool(b) => Some(KInt(if b then 1 else 0))
    case JInt(n) => Some(KInt(n))
    case JStr(s) => Some(KStr(s))
    case _ => None
  }

  /** One verdict: the criterion it is about, the `crit_id` a new entry is
      named after, and whether it counts as a pass. */
  datatype Entry = Entry(key: Key, name: Json, passed: bool)

  /** One entry of the result: `{"name", "pass", "fail", "total"}`. */
  datatype Stat = Stat(name: Json, pass: nat, fail: nat, total: nat)

  /** `criteria_map`: its items in insertion order. */
  type Tally = seq<(Key, Stat)>

  /** A verdict of the dict form passes when it is `"success"`, or a dict
      whose `result` is `"success"`. */
  predicate ResultPassed(result: Json) {
    if result.JObj? then Get(result.members, "result") == JStr("success")
    else result == JStr("success")
  }

  /** The verdicts of the dict form `{crit_id: result, ...}`, one per item. */
  function DictEntries(ms: seq<(string, Json)>): seq<Entry> {
    seq(|ms|, i requires 0 <= i < |ms| => Entry(KStr(ms[i].0), JStr(ms[i].0), ResultPassed(ms[i].1)))
  }

  /** `item.get("id") or item.get("criteria_id") or str(item)` */
  function ItemId(ms: seq<(string, Json)>): Json {
    OrChain([Get(ms, "id"), Get(ms, "criteria_id"), JStr(PyStr(JObj(ms)))])
  }

  /** The verdicts of the list form `[{id, result, ...}, ...]`: an item that
      is not a dict raises AttributeError, which nothing catches; an item
      whose id is a list or a dict raises TypeError, which ends this list
      and is swallowed, keeping the verdicts before it. */
  function ListEntries(items: seq<Json>): Result<seq<Entry>> {
    if items == [] then Success([])
    else if !items[0].JObj? then Failure(NotADict)
    else
      var id := ItemId(items[0].members);
      match HashKey(id)
      case None => Success([])
      case Some(k) =>
        Prefixed([Entry(k, id, Get(items[0].members, "result") == JStr("success"))], ListEntries(items[1..]))
  }

  function Prefixed(pre: seq<Entry>, r: Result<seq<Entry>>): Result<seq<Entry>> {
    match r
    case Failure(e) => Failure(e)
    case Success(es) => Success(pre + es)
  }

  /** The verdicts of one row's `evaluation_criteria_results` (the column
      holds the value before `json.dumps`, so `json.loads` gives it back):
      none when it is NULL or neither a dict nor a list. */
  function RowEntries(criteria: Json): Result<seq<Entry>> {
    match criteria
    case JObj(ms) => Success(DictEntries(ms))
    case JArr(items) => ListEntries(items)
    case _ => Success([])
  }

  /** The verdicts of all rows in order, or the first error. */
  function AllEntries(rows: seq<Conversation>): Result<seq<Entry>> {
    if rows == [] then Success([])
    else match RowEntries(rows[0].evaluationCriteriaResults)
      case Failure(e) => Failure(e)
      case Success(es) => Prefixed(es, AllEntries(rows[1..]))
  }

  /** Where the key `k` sits in the tally: its first index, or the length
      when it is absent. */
  function Slot(t: Tally, k: Key): (r: nat)
    ensures r <= |t|
    ensures r < |t| ==> t[r].0 == k
    ensures forall j :: 0 <= j < r ==> t[j].0 != k
  {
    if t == [] then 0 else if t[0].0 == k then 0 else 1 + Slot(t[1..], k)
  }

  /** One verdict counted: the criterion is added on first sight with zero
      counters, then its `total` and its `pass` or `fail` go up by one. */
  function Add(t: Tally, e: Entry): Tally {
    var i := Slot(t, e.key);
    if i < |t| then t[i := (e.key, Bump(t[i].1, e.passed))]
    else t + [(e.key, Bump(Stat(e.name, 0, 0, 0), e.passed))]
  }

  /** `total` and one of `pass` and `fail` up by one. */
  function Bump(s: Stat, passed: bool): Stat {
    Stat(s.name, s.pass + (if passed then 1 else 0), s.fail + (if passed then 0 else 1), s.total + 1)
  }

  /** The verdicts counted in order. */
  function AddAll(t: Tally, es: seq<Entry>): (r: Tally)
    ensures |t| <= |r| <= |t| + |es|
  {
    if es == [] then t else Add(AddAll(t, es[..|es| - 1]), es[|es| - 1])
  }

  /** `list(criteria_map.values())` */
  function Stats(t: Tally): seq<Stat> {
    seq(|t|, i requires 0 <= i < |t| => t[i].1)
  }

  /** What `_compute_criteria_stats(rows)` returns, or the exception that
      escapes it. */
  function CriteriaStatsOf(rows: seq<Conversation>): (r: Result<seq<Stat>>)
    ensures r.Success? <==> AllEntries(rows).Success?
    ensures r.Success? ==> |r.value| <= |AllEntries(rows).value|
  {
    match AllEntries(rows)
    case Failure(e) => Failure(e)
    case Success(es) => Success(Stats(AddAll([], es)))
  }

  /** The body of both inner loops: insert the criterion when it is new,
      then count the verdict. */
  method Count(tally: Tally, k: Key, name: Json, passed: bool) returns (r: Tally)
    ensures r == Add(tally, Entry(k, name, passed))
  {
    r := tally;
    var i := Slot(r, k);
    if i == |r| {
      r := r + [(k, Stat(name, 0, 0, 0))];
    }
    var s := r[i].1;
    s := s.(total := s.total + 1);
    if passed {
      s := s.(pass := s.pass + 1);
    } else {
      s := s.(fail := s.fail + 1);
    }
    r := r[i := (k, s)];
  }

  /** Counting `a` then `b` is counting `a + b`. */
  lemma {:induction false} AddAllConcat(t: Tally, a: seq<Entry>, b: seq<Entry>)
    ensures AddAll(AddAll(t, a), b) == AddAll(t, a + b)
  {
    if b != [] {
      var b' := b[..|b| - 1];
      AddAllConcat(t, a, b');
      assert (a + b)[..|a + b| - 1] == a + b';
    } else {
      assert a + b == a;
    }
  }

  lemma PrefixedConcat(a: seq<Entry>, b: seq<Entry>, r: Result<seq<Entry>>)
    ensures Prefixed(a + b, r) == Prefixed(a, Prefixed(b, r))
    ensures Prefixed([], r) == r
  {
    if r.Success? {
      assert a + b + r.value == a + (b + r.value);
      assert [] + r.value == r.value;
    }
  }

  /** The loop over the items of the dict form. */
  method CountDict(tally: Tally, ms: seq<(string, Json)>) returns (r: Tally)
    ensures r == AddAll(tally, DictEntries(ms))
  {
    r := tally;
    var j := 0;
    while j < |ms|
      invariant j <= |ms|
      invariant r == AddAll(tally, DictEntries(ms)[..j])
    {
      r := Count(r, KStr(ms[j].0), JStr(ms[j].0), ResultPassed(ms[j].1));
      assert DictEntries(ms)[..j + 1][..j] == DictEntries(ms)[..j];
      j := j + 1;
    }
    assert DictEntries(ms)[..j] == DictEntries(ms);
  }

  /** The loop over the items of the list form, up to the item whose id
      cannot be a key; the first item that is not a dict aborts it. */
  method CountList(tally: Tally, items: seq<Json>) returns (r: Result<Tally>)
    ensures ListEntries(items).Failure? ==> r == Failure(ListEntries(items).error)
    ensures ListEntries(items).Success? ==> r == Success(AddAll(tally, ListEntries(items).value))
  {
    var t := tally;
    ghost var row: seq<Entry> := [];
    var j := 0;
    assert items[j..] == items;
    PrefixedConcat([], [], ListEntries(items));
    while j < |items|
      invariant j <= |items|
      invariant t == AddAll(tally, row)
      invariant ListEntries(items) == Prefixed(row, ListEntries(items[j..]))
    {
      assert items[j..] != [];
      assert items[j..][1..] == items[j + 1..];
      var item := items[j];
      if !item.JObj? {
        return Failure(NotADict);
      }
      var id := ItemId(item.members);
      var key := HashKey(id);
      if key.None? {
        assert ListEntries(items[j..]) == Success([]);
        assert row + [] == row;
        break;
      }
      var passed := Get(item.members, "result") == JStr("success");
      t := Count(t, key.value, id, passed);
      ghost var e := Entry(key.value, id, passed);
      assert (row + [e])[..|row|] == row;
      PrefixedConcat(row, [e], ListEntries(items[j + 1..]));
      row := row + [e];
      j := j + 1;
    }
    assert row + [] == row;
    assert ListEntries(items) == Success(row);
    r := Success(t);
  }

  /** `_compute_criteria_stats` */
  method ComputeCriteriaStats(rows: seq<Conversation>) returns (r: Result<seq<Stat>>)
    ensures r == CriteriaStatsOf(rows)
  {
    var tally: Tally := [];
    ghost var seen: seq<Entry> := [];
    var n := 0;
    assert rows[n..] == rows;
    PrefixedConcat([], [], AllEntries(rows));
    while n < |rows|
      invariant n <= |rows|
      invariant tally == AddAll([], seen)
      invariant AllEntries(rows) == Prefixed(seen, AllEntries(rows[n..]))
    {
      assert rows[n..][1..] == rows[n + 1..];
      var criteria := rows[n].evaluationCriteriaResults;
      match criteria {
        case JObj(ms) =>
          tally := CountDict(tally, ms);
        case JArr(items) =>
          var counted := CountList(tally, items);
          if counted.Failure? {
            return Failure(counted.error);
          }
          tally := counted.value;
        case _ =>
      }
      ghost var row := RowEntries(criteria).value;
      AddAllConcat([], seen, row);
      PrefixedConcat(seen, row, AllEntries(rows[n + 1..]));
      seen := seen + row;
      n := n + 1;
    }
    assert seen + [] == seen;
    r := Success(Stats(tally));
  }
}
