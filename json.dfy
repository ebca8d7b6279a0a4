/** The untyped JSON documents the provider returns, and the few Python
    operations the sync service applies to them: truthiness, `dict.get`,
    the `a or b or c` chain, `str()`, `str.strip()` and `str.lower()`. */
module JsonValue {

  datatype Option<T> = None | Some(value: T)

  /** A decoded JSON value. An object keeps its members in insertion order,
      as a Python dict does; its keys are distinct, so the first member with
      a key is the dict's entry for it. JSON numbers are integers here. */
  datatype Json =
    | JNull
    | JBool(b: bool)
    | JInt(n: int)
    | JStr(s: string)
    | JArr(items: seq<Json>)
    | JObj(members: seq<(string, Json)>)

  /** Python truthiness: None, False, 0, "", [] and {} are false. */
  predicate Truthy(j: Json) {
    match j
    case JNull => false
    case JBool(b) => b
    case JInt(n) => n != 0
    case JStr(s) => s != ""
    case JArr(xs) => xs != []
    case JObj(ms) => ms != []
  }

  /** The value stored under `key`, if any. */
  function Find(ms: seq<(string, Json)>, key: string): Option<Json> {
    if ms == [] then None
    else if ms[0].0 == key then Some(ms[0].1)
    else Find(ms[1..], key)
  }

  /** A key no member has is absent. */
  lemma {:induction false} FindAbsent(ms: seq<(string, Json)>, key: string)
    requires forall i :: 0 <= i < |ms| ==> ms[i].0 != key
    ensures Find(ms, key) == None
  {
    if ms != [] {
      FindAbsent(ms[1..], key);
    }
  }

  /** Adding a member at the end changes the lookup only of a key that was absent. */
  lemma {:induction false} FindAppend(ms: seq<(string, Json)>, k: string, v: Json, key: string)
    ensures Find(ms + [(k, v)], key) ==
      if Find(ms, key).Some? then Find(ms, key) else if k == key then Some(v) else None
  {
    if ms != [] {
      assert (ms + [(k, v)])[1..] == ms[1..] + [(k, v)];
      FindAppend(ms[1..], k, v, key);
    }
  }

  lemma FindAppendAll(ms: seq<(string, Json)>, k: string, v: Json)
    ensures forall key :: Find(ms + [(k, v)], key)
                          == if Find(ms, key).Some? then Find(ms, key) else if k == key then Some(v) else None
  {
    forall key {
      FindAppend(ms, k, v, key);
    }
  }

  /** `d.get(key, default)` */
  function GetOr(ms: seq<(string, Json)>, key: string, default: Json): Json {
    match Find(ms, key)
    case Some(v) => v
    case None => default
  }

  /** `d.get(key)` */
  function Get(ms: seq<(string, Json)>, key: string): Json {
    GetOr(ms, key, JNull)
  }

  /** The members of `d.get(key, {})` when that is a non-empty dict, which is
      what `x = d.get(key, {}); if x and isinstance(x, dict)` selects. */
  function NonEmptyDict(ms: seq<(string, Json)>, key: string): Option<seq<(string, Json)>> {
    match GetOr(ms, key, JObj([]))
    case JObj(inner) => if inner != [] then Some(inner) else None
    case _ => None
  }

  /** Python's `xs[0] or xs[1] or ... or xs[n-1]`: the first truthy operand,
      or the last operand when none is truthy. */
  function OrChain(xs: seq<Json>): (r: Json)
    requires |xs| > 0
    ensures Truthy(r) <==> exists i :: 0 <= i < |xs| && Truthy(xs[i])
    ensures Truthy(r) ==> exists i :: 0 <= i < |xs| && xs[i] == r
                                      && forall j :: 0 <= j < i ==> !Truthy(xs[j])
    ensures !Truthy(r) ==> r == xs[|xs| - 1]
  {
    if |xs| == 1 || Truthy(xs[0]) then xs[0] else OrChain(xs[1..])
  }

  /** Python's `str.isspace` for one character (Py_UNICODE_ISSPACE). */
  predicate IsSpace(c: char) {
    var n := c as int;
    (9 <= n <= 13) || (28 <= n <= 32) || n == 0x85 || n == 0xA0 || n == 0x1680
    || (0x2000 <= n <= 0x200A) || n == 0x2028 || n == 0x2029 || n == 0x202F
    || n == 0x205F || n == 0x3000
  }

  /** `s.lstrip()` */
  function TrimStart(s: string): (r: string)
    ensures |r| <= |s| && r == s[|s| - |r|..]
    ensures r == [] || !IsSpace(r[0])
    ensures forall i :: 0 <= i < |s| - |r| ==> IsSpace(s[i])
  {
    if s != [] && IsSpace(s[0]) then TrimStart(s[1..]) else s
  }

  /** `s.rstrip()` */
  function TrimEnd(s: string): (r: string)
    ensures |r| <= |s| && r == s[..|r|]
    ensures r == [] || !IsSpace(r[|r| - 1])
    ensures forall i :: |r| <= i < |s| ==> IsSpace(s[i])
  {
    if s != [] && IsSpace(s[|s| - 1]) then TrimEnd(s[..|s| - 1]) else s
  }

  /** `s.strip()` */
  function Strip(s: string): (r: string) {
    TrimEnd(TrimStart(s))
  }

  /** Stripping removes only surrounding white space and leaves none behind. */
  lemma StripShape(s: string)
    ensures var r := Strip(s);
      && |r| <= |s|
      && (r == [] || (!IsSpace(r[0]) && !IsSpace(r[|r| - 1])))
      && (exists k: nat :: SliceAt(s, k, r))
      && (r == [] <==> forall i :: 0 <= i < |s| ==> IsSpace(s[i]))
  {
    var t := TrimStart(s);
    var r := TrimEnd(t);
    var k := |s| - |t|;
    assert SliceAt(s, k, r);
    if r != [] {
      assert r[0] == t[0];
    }
  }

  /** A string with no white space at either end is its own strip. */
  lemma StripStripped(s: string)
    requires s == [] || (!IsSpace(s[0]) && !IsSpace(s[|s| - 1]))
    ensures Strip(s) == s
  {
  }

  /** ASCII `str.lower()`; the keywords the code looks for are ASCII. */
  function Lower(s: string): (r: string)
    ensures |r| == |s|
  {
    seq(|s|, i requires 0 <= i < |s| => if 'A' <= s[i] <= 'Z' then (s[i] as int + 32) as char else s[i])
  }

  /** `sub` occurs in `s` starting at index `i`. */
  predicate SliceAt(s: string, i: nat, sub: string) {
    i + |sub| <= |s| && s[i..i + |sub|] == sub
  }

  /** Python's `sub in s` for strings. */
  predicate Contains(s: string, sub: string) {
    exists i: nat | i <= |s| :: SliceAt(s, i, sub)
  }

  /** `any(kw in s for kw in kws)` */
  predicate ContainsAny(s: string, kws: seq<string>) {
    exists k :: 0 <= k < |kws| && Contains(s, kws[k])
  }

  function DigitChar(d: nat): char
    requires d < 10
  {
    "0123456789"[d]
  }

  /** `str(n)` for a non-negative integer. */
  function NatToString(n: nat): (r: string)
    ensures |r| >= 1
    ensures forall i :: 0 <= i < |r| ==> '0' <= r[i] <= '9'
  {
    if n < 10 then [DigitChar(n)] else NatToString(n / 10) + [DigitChar(n % 10)]
  }

  /** `str(n)` for any integer. */
  function IntToString(n: int): string {
    if n < 0 then "-" + NatToString(-n) else NatToString(n)
  }

  /** An integer the SQLite driver can bind: a signed 64-bit value. A wider
      one makes the driver raise OverflowError. */
  predicate FitsInt64(n: int) {
    -0x8000_0000_0000_0000 <= n < 0x8000_0000_0000_0000
  }

  /** `str(v)` for a JSON value. Strings inside containers are quoted with
      single quotes, which is Python's repr for strings without quotes,
      backslashes or unprintable characters. */
  function PyStr(j: Json): string {
    match j
    case JStr(s) => s
    case _ => PyRepr(j)
  }

  function PyRepr(j: Json): string
    decreases j, 1
  {
    match j
    case JNull => "None"
    case JBool(b) => if b then "True" else "False"
    case JInt(n) => IntToString(n)
    case JStr(s) => "'" + s + "'"
    case JArr(xs) => "[" + ReprItems(j, 0) + "]"
    case JObj(ms) => "{" + ReprMembers(j, 0) + "}"
  }

  function ReprItems(j: Json, i: nat): string
    requires j.JArr?
    decreases j, 0, |j.items| - i
  {
    if i >= |j.items| then ""
    else
      assert j.items[i] < j;
      (if i > 0 then ", " else "") + PyRepr(j.items[i]) + ReprItems(j, i + 1)
  }

  function ReprMembers(j: Json, i: nat): string
    requires j.JObj?
    decreases j, 0, |j.members| - i
  {
    if i >= |j.members| then ""
    else
      var m := j.members[i];
      assert m.1 < j;
      (if i > 0 then ", " else "") + "'" + m.0 + "': " + PyRepr(m.1) + ReprMembers(j, i + 1)
  }
}
