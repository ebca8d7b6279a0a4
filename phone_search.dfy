/** The two tree walks the phone resolver falls back on
    (sync_service.py `_deep_find_phone_values` and `_deep_search_in_dict`). */
module PhoneSearch {
  import opened JsonValue

  predicate IsDigit(c: char) {
    '0' <= c <= '9'
  }

  /** `re.match(r'^\+?\d[\d\s\-]{6,15}\d$', s)` with `\d` narrowed to the
      ASCII digits: an optional `+`, then 8 to 17 characters that start and
      end with a digit and hold only digits, white space and hyphens. */
  predicate PhoneShaped(s: string) {
    var t := if |s| > 0 && s[0] == '+' then s[1..] else s;
    && 8 <= |t| <= 17
    && IsDigit(t[0])
    && IsDigit(t[|t| - 1])
    && forall i :: 1 <= i < |t| - 1 ==> IsDigit(t[i]) || IsSpace(t[i]) || t[i] == '-'
  }

  /** A phone-shaped string leaf and where it was found. */
  datatype Candidate = Candidate(path: string, value: string)

  /** The path of a dict member: `f"{path}.{k}" if path else k`. */
  function MemberPath(path: string, key: string): string {
    if path != "" then path + "." + key else key
  }

  /** The path of a list element: `f"{path}[{i}]"`. */
  function ItemPath(path: string, i: nat): string {
    path + "[" + NatToString(i) + "]"
  }

  /** `_deep_find_phone_values(j, path)`: the phone-shaped string leaves of
      `j`, stripped, in depth-first order (dict members in insertion order,
      list elements by ascending index). Numbers are never candidates. */
  function DeepFind(j: Json, path: string): (r: seq<Candidate>)
    ensures forall c :: c in r ==> PhoneShaped(c.value)
    decreases j, 1
  {
    match j
    case JObj(_) => FindMembers(j, 0, path)
    case JArr(_) => FindItems(j, 0, path)
    case JStr(s) => if PhoneShaped(Strip(s)) then [Candidate(path, Strip(s))] else []
    case _ => []
  }

  function FindMembers(j: Json, i: nat, path: string): (r: seq<Candidate>)
    requires j.JObj?
    ensures forall c :: c in r ==> PhoneShaped(c.value)
    decreases j, 0, |j.members| - i
  {
    if i >= |j.members| then []
    else
      var m := j.members[i];
      assert m.1 < j;
      DeepFind(m.1, MemberPath(path, m.0)) + FindMembers(j, i + 1, path)
  }

  function FindItems(j: Json, i: nat, path: string): (r: seq<Candidate>)
    requires j.JArr?
    ensures forall c :: c in r ==> PhoneShaped(c.value)
    decreases j, 0, |j.items| - i
  {
    if i >= |j.items| then []
    else
      assert j.items[i] < j;
      DeepFind(j.items[i], ItemPath(path, i)) + FindItems(j, i + 1, path)
  }

  // ---------------------------------------------------------------------
  // An independent description of the same search: list every scalar leaf
  // with its path, then keep the strings whose strip is phone-shaped.

  /** Every scalar leaf of `j` with its path, in depth-first order. */
  function Leaves(j: Json, path: string): seq<(string, Json)>
    decreases j, 1
  {
    match j
    case JObj(_) => MemberLeaves(j, 0, path)
    case JArr(_) => ItemLeaves(j, 0, path)
    case _ => [(path, j)]
  }

  function MemberLeaves(j: Json, i: nat, path: string): seq<(string, Json)>
    requires j.JObj?
    decreases j, 0, |j.members| - i
  {
    if i >= |j.members| then []
    else
      var m := j.members[i];
      assert m.1 < j;
      Leaves(m.1, MemberPath(path, m.0)) + MemberLeaves(j, i + 1, path)
  }

  function ItemLeaves(j: Json, i: nat, path: string): seq<(string, Json)>
    requires j.JArr?
    decreases j, 0, |j.items| - i
  {
    if i >= |j.items| then []
    else
      assert j.items[i] < j;
      Leaves(j.items[i], ItemPath(path, i)) + ItemLeaves(j, i + 1, path)
  }

  /** The candidate a single leaf yields, if any. */
  function PickLeaf(leaf: (string, Json)): seq<Candidate> {
    if leaf.1.JStr? && PhoneShaped(Strip(leaf.1.s)) then [Candidate(leaf.0, Strip(leaf.1.s))] else []
  }

  /** The candidates among a list of leaves. */
  function PhoneLeaves(leaves: seq<(string, Json)>): seq<Candidate> {
    FlatMap(PickLeaf, leaves)
  }

  /** `f` applied to each element of `s`, the results joined in order. */
  function FlatMap<T, U>(f: T -> seq<U>, s: seq<T>): seq<U> {
    if s == [] then [] else f(s[0]) + FlatMap(f, s[1..])
  }

  lemma {:induction false} FlatMapAppend<T, U>(f: T -> seq<U>, a: seq<T>, b: seq<T>)
    ensures FlatMap(f, a + b) == FlatMap(f, a) + FlatMap(f, b)
  {
    if a == [] {
      assert a + b == b;
    } else {
      var ab := a + b;
      assert ab[0] == a[0] && ab[1..] == a[1..] + b;
      FlatMapAppend(f, a[1..], b);
      var p, x, y := f(a[0]), FlatMap(f, a[1..]), FlatMap(f, b);
      assert p + (x + y) == (p + x) + y;
    }
  }

  /** The pattern search keeps exactly the string leaves whose stripped
      text is phone-shaped, in document order, and nothing else. */
  lemma {:induction false} DeepFindIsPhoneLeaves(j: Json, path: string)
    ensures DeepFind(j, path) == PhoneLeaves(Leaves(j, path))
    decreases j, 1
  {
    match j
    case JObj(_) => MembersArePhoneLeaves(j, 0, path);
    case JArr(_) => ItemsArePhoneLeaves(j, 0, path);
    case _ =>
      var leaf := [(path, j)];
      assert leaf[1..] == [] && FlatMap(PickLeaf, leaf[1..]) == [];
      assert PhoneLeaves(leaf) == PickLeaf(leaf[0]) + [];
  }

  lemma {:induction false} MembersArePhoneLeaves(j: Json, i: nat, path: string)
    requires j.JObj?
    ensures FindMembers(j, i, path) == PhoneLeaves(MemberLeaves(j, i, path))
    decreases j, 0, |j.members| - i
  {
    if i < |j.members| {
      var m := j.members[i];
      assert m.1 < j;
      DeepFindIsPhoneLeaves(m.1, MemberPath(path, m.0));
      MembersArePhoneLeaves(j, i + 1, path);
      FlatMapAppend(PickLeaf, Leaves(m.1, MemberPath(path, m.0)), MemberLeaves(j, i + 1, path));
    }
  }

  lemma {:induction false} ItemsArePhoneLeaves(j: Json, i: nat, path: string)
    requires j.JArr?
    ensures FindItems(j, i, path) == PhoneLeaves(ItemLeaves(j, i, path))
    decreases j, 0, |j.items| - i
  {
    if i < |j.items| {
      assert j.items[i] < j;
      DeepFindIsPhoneLeaves(j.items[i], ItemPath(path, i));
      ItemsArePhoneLeaves(j, i + 1, path);
      FlatMapAppend(PickLeaf, Leaves(j.items[i], ItemPath(path, i)), ItemLeaves(j, i + 1, path));
    }
  }

  lemma {:induction false} PhoneLeavesFromStrings(leaves: seq<(string, Json)>, c: Candidate)
    requires c in PhoneLeaves(leaves)
    ensures exists s :: (c.path, JStr(s)) in leaves && c.value == Strip(s)
  {
    if c !in PickLeaf(leaves[0]) {
      PhoneLeavesFromStrings(leaves[1..], c);
      var s :| (c.path, JStr(s)) in leaves[1..] && c.value == Strip(s);
      assert (c.path, JStr(s)) in leaves;
    }
  }

  /** Every candidate is the stripped text of a string leaf at its path:
      an integer leaf never yields one. */
  lemma CandidatesAreStringLeaves(j: Json, path: string, c: Candidate)
    requires c in DeepFind(j, path)
    ensures exists s :: (c.path, JStr(s)) in Leaves(j, path) && c.value == Strip(s)
  {
    DeepFindIsPhoneLeaves(j, path);
    PhoneLeavesFromStrings(Leaves(j, path), c);
  }

  // ---------------------------------------------------------------------
  // `_deep_search_in_dict`: the keyword-guided search of the metadata.

  /** Keys whose string value names the agent's (the voicebot's) number. */
  const AgentKeys: set<string> := {"agent_number", "to_number", "To", "Called", "agent_phone",
    "called_number", "bot_number", "destination_number", "dialed_number",
    "agent_phone_number", "to"}

  /** Keys whose string value names the client's number. */
  const ClientKeys: set<string> := {"from_number", "From", "Caller", "external_number",
    "customer_number", "caller_number", "client_phone", "source_number",
    "originating_number", "customer_phone", "phone_number", "phone", "from",
    "caller_phone_number"}

  /** The `result` dict the search fills: its "agent" and "client" entries. */
  datatype Found = Found(agent: Option<string>, client: Option<string>)

  /** What the search leaves in `result`, starting from `acc`, over the
      members of dict `d` from index `i` on. `skipAgent`/`skipClient` say
      that the caller already resolved that role. */
  function SearchMembers(d: Json, i: nat, skipAgent: bool, skipClient: bool, acc: Found): Found
    requires d.JObj?
    decreases d, 1, |d.members| - i
  {
    if i >= |d.members| then acc
    else SearchMembers(d, i + 1, skipAgent, skipClient, Visit(d, i, skipAgent, skipClient, acc))
  }

  /** The effect of the member at index `i` of `d`: a nested dict is
      searched, a non-blank string is recorded, anything else is ignored. */
  function Visit(d: Json, i: nat, skipAgent: bool, skipClient: bool, acc: Found): Found
    requires d.JObj? && i < |d.members|
    decreases d, 0, 0
  {
    var m := d.members[i];
    assert m.1 < d;
    match m.1
    case JObj(_) => SearchMembers(m.1, 0, skipAgent, skipClient, acc)
    case JStr(s) => if Strip(s) != "" then Record(m.0, Strip(s), skipAgent, skipClient, acc) else acc
    case _ => acc
  }

  /** One non-blank string `v` under key `k`. */
  function Record(k: string, v: string, skipAgent: bool, skipClient: bool, acc: Found): Found {
    Found(
      if !skipAgent && acc.agent.None? && k in AgentKeys then Some(v) else acc.agent,
      if !skipClient && acc.client.None? && k in ClientKeys then Some(v) else acc.client)
  }

  /** The `result` dict of `_deep_search_in_dict`, which the search fills in place. */
  class SearchResult {
    var agent: Option<string>
    var client: Option<string>

    constructor ()
      ensures agent == None && client == None
    {
      agent := None;
      client := None;
    }

    /** A non-blank string `v` under key `k` fills each role that the
        caller has not resolved, that is still empty here and whose
        keywords hold `k`. */
    method Keep(k: string, v: string, existingAgent: Json, existingClient: Json)
      modifies this
      ensures Found(agent, client) == Record(k, v, Truthy(existingAgent), Truthy(existingClient), old(Found(agent, client)))
    {
      if !Truthy(existingAgent) && agent.None? && k in AgentKeys {
        agent := Some(v);
      }
      if !Truthy(existingClient) && client.None? && k in ClientKeys {
        client := Some(v);
      }
    }
  }

  /** `_deep_search_in_dict(d, ..., existing_agent, existing_client, result)`:
      walks `d` and its nested dicts (never lists) in key order. */
  method DeepSearchInDict(d: Json, existingAgent: Json, existingClient: Json, result: SearchResult)
    requires d.JObj?
    modifies result
    ensures Found(result.agent, result.client)
         == SearchMembers(d, 0, Truthy(existingAgent), Truthy(existingClient),
                          Found(old(result.agent), old(result.client)))
    decreases d
  {
    ghost var skipA, skipC := Truthy(existingAgent), Truthy(existingClient);
    ghost var total := SearchMembers(d, 0, skipA, skipC, Found(result.agent, result.client));
    ghost var acc := Found(result.agent, result.client);
    var i := 0;
    while i < |d.members|
      invariant 0 <= i <= |d.members|
      invariant acc == Found(result.agent, result.client)
      invariant SearchMembers(d, i, skipA, skipC, acc) == total
    {
      ghost var after := Visit(d, i, skipA, skipC, acc);
      assert SearchMembers(d, i, skipA, skipC, acc) == SearchMembers(d, i + 1, skipA, skipC, after);
      var k, v := d.members[i].0, d.members[i].1;
      assert v < d;
      if v.JObj? {
        assert after == SearchMembers(v, 0, skipA, skipC, acc);
        DeepSearchInDict(v, existingAgent, existingClient, result);
      } else if v.JStr? && Strip(v.s) != "" {
        assert after == Record(k, Strip(v.s), skipA, skipC, acc);
        result.Keep(k, Strip(v.s), existingAgent, existingClient);
      } else {
        assert after == acc;
      }
      acc := after;
      i := i + 1;
    }
  }

  // An independent description of the keyword search: the stripped,
  // non-blank strings filed under a key of `keys`, in the order the search
  // meets them.

  function KeywordValues(d: Json, i: nat, keys: set<string>): seq<string>
    requires d.JObj?
    decreases d, |d.members| - i
  {
    if i >= |d.members| then []
    else
      var m := d.members[i];
      assert m.1 < d;
      var here :=
        match m.1
        case JObj(_) => KeywordValues(m.1, 0, keys)
        case JStr(s) => if Strip(s) != "" && m.0 in keys then [Strip(s)] else []
        case _ => [];
      here + KeywordValues(d, i + 1, keys)
  }

  function First(xs: seq<string>): Option<string> {
    if xs == [] then None else Some(xs[0])
  }

  /** The search records, for each role it may still fill, the first
      keyword-filed string; it never overwrites a recorded role and never
      fills a role the caller resolved. */
  lemma {:induction false} SearchFindsFirst(d: Json, i: nat, skipAgent: bool, skipClient: bool, acc: Found)
    requires d.JObj?
    ensures SearchMembers(d, i, skipAgent, skipClient, acc).agent
         == if skipAgent || acc.agent.Some? then acc.agent else First(KeywordValues(d, i, AgentKeys))
    ensures SearchMembers(d, i, skipAgent, skipClient, acc).client
         == if skipClient || acc.client.Some? then acc.client else First(KeywordValues(d, i, ClientKeys))
    decreases d, |d.members| - i
  {
    if i < |d.members| {
      var m := d.members[i];
      assert m.1 < d;
      var next := Visit(d, i, skipAgent, skipClient, acc);
      assert SearchMembers(d, i, skipAgent, skipClient, acc) == SearchMembers(d, i + 1, skipAgent, skipClient, next);
      if m.1.JObj? {
        SearchFindsFirst(m.1, 0, skipAgent, skipClient, acc);
      }
      SearchFindsFirst(d, i + 1, skipAgent, skipClient, next);
      KeywordValuesStep(d, i, AgentKeys);
      KeywordValuesStep(d, i, ClientKeys);
    }
  }

  /** The keyword-filed strings from member `i` on: those under member `i`
      first, then those after it. */
  lemma KeywordValuesStep(d: Json, i: nat, keys: set<string>)
    requires d.JObj? && i < |d.members|
    ensures var m := d.members[i];
      var here :=
        match m.1
        case JObj(_) => KeywordValues(m.1, 0, keys)
        case JStr(s) => if Strip(s) != "" && m.0 in keys then [Strip(s)] else []
        case _ => [];
      First(KeywordValues(d, i, keys)) == if here != [] then First(here) else First(KeywordValues(d, i + 1, keys))
  {
  }
}
