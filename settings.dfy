/** The `app_settings` table (database.py `AppSettings`) and the helpers
    that read and write it: `get_setting`, `set_setting`, `get_agents` and
    `set_agents`. The agent list is kept as JSON text under `agents`, and
    the id of its first agent under the older single-agent key `agent_id`. */
module Settings {
  import opened JsonValue
  import opened Outcomes

  /** `json.dumps(value, ensure_ascii=False)` */
  type Encoder = Json -> string

  /** `json.loads(text)`; None when it raises JSONDecodeError. */
  type Decoder = string -> Option<Json>

  /** `get_setting(key)`: the committed value, None when there is no row. */
  function Setting(values: map<string, string>, key: string): Option<string> {
    if key in values then Some(values[key]) else None
  }

  /** The text the `value` column (TEXT affinity) ends up holding for a
      JSON value bound to it: a string as it is, a number or a boolean as
      its decimal digits (`True` is bound as 1), NULL for None; a list, a
      dict or an integer beyond 64 bits cannot be bound, so the commit
      raises. */
  function BoundText(v: Json): (r: Result<Option<string>>)
    ensures r.Success? <==> v.JNull? || v.JBool? || v.JStr? || (v.JInt? && FitsInt64(v.n))
    ensures r.Success? ==> (r.value.None? <==> v.JNull?)
  {
    match v
    case JNull => Success(None)
    case JBool(b) => Success(Some(if b then "1" else "0"))
    case JInt(n) => if FitsInt64(n) then Success(Some(IntToString(n))) else Failure(Unbindable)
    case JStr(s) => Success(Some(s))
    case _ => Failure(Unbindable)
  }

  /** The table after `set_setting(key, value)` and what it raises: the
      upserted row is committed, unless the value is NULL, which the NOT
      NULL constraint rejects at commit and the rollback discards. */
  function SetOf(values: map<string, string>, key: string, value: Option<string>): (map<string, string>, Option<Error>) {
    match value
    case Some(v) => (values[key := v], None)
    case None => (values, Some(IntegrityError))
  }

  /** The first agent's `["id"]` as the text `set_setting` is given, or what
      reading it raises. */
  function FirstAgentId(agents: seq<Json>): Result<Option<string>>
    requires agents != []
  {
    match agents[0]
    case JObj(ms) =>
      (match Find(ms, "id")
       case Some(id) => BoundText(id)
       case None => Failure(MissingKey))
    case _ => Failure(NotADict)
  }

  /** The table after `set_agents(agents)` and what it raises: the list is
      committed as JSON text first; then, for a non-empty list, the first
      agent's id is committed under `agent_id`. */
  function SetAgentsOf(values: map<string, string>, agents: seq<Json>, encode: Encoder): (r: (map<string, string>, Option<Error>))
    ensures "agents" in r.0 && r.0["agents"] == encode(JArr(agents))
    ensures forall k :: k in values && k != "agents" && k != "agent_id" ==> k in r.0 && r.0[k] == values[k]
    ensures r.0.Keys <= values.Keys + {"agents", "agent_id"}
    ensures agents == [] ==> r.1 == None
  {
    var saved := SetOf(values, "agents", Some(encode(JArr(agents)))).0;
    if agents == [] then (saved, None)
    else match FirstAgentId(agents)
      case Failure(e) => (saved, Some(e))
      case Success(id) => SetOf(saved, "agent_id", id)
  }

  /** The list `get_agents` falls back on: the single agent of the older
      `agent_id` setting, named after its first twelve characters, or no
      agent when that setting is absent or empty. */
  function LegacyAgents(values: map<string, string>): seq<Json> {
    match Setting(values, "agent_id")
    case Some(id) =>
      if id != "" then [JObj([("id", JStr(id)), ("name", JStr(if |id| <= 12 then id else id[..12]))])] else []
    case None => []
  }

  /** `get_agents()`: the stored list when its text decodes to a non-empty
      list, the fallback otherwise. */
  function AgentsOf(values: map<string, string>, decode: Decoder): (r: seq<Json>)
    ensures r == [] ==> Setting(values, "agent_id").None? || Setting(values, "agent_id") == Some("")
    ensures |r| > 1 ==> "agents" in values && decode(values["agents"]) == Some(JArr(r))
  {
    match Setting(values, "agents")
    case Some(raw) =>
      if raw != "" && decode(raw).Some? && decode(raw).value.JArr? && decode(raw).value.items != [] then
        decode(raw).value.items
      else LegacyAgents(values)
    case None => LegacyAgents(values)
  }

  class SettingsTable {
    var values: map<string, string>

    constructor(values0: map<string, string>)
      ensures values == values0
    {
      values := values0;
    }

    /** `get_setting(db, key)` */
    function GetSetting(key: string): (r: Option<string>)
      reads this
      ensures r.Some? <==> key in values
      ensures r.Some? ==> r.value == values[key]
    {
      Setting(values, key)
    }

    /** `set_setting(db, key, value)`: update the row or add one, then
        commit. */
    method SetSetting(key: string, value: Option<string>) returns (err: Option<Error>)
      modifies this
      ensures value.Some? ==> err == None && values == old(values)[key := value.value]
      ensures value.None? ==> err == Some(IntegrityError) && values == old(values)
    {
      if value.None? {
        return Some(IntegrityError);
      }
      values := values[key := value.value];
      err := None;
    }

    /** `get_agents(db)` */
    function GetAgents(decode: Decoder): (r: seq<Json>)
      reads this
      ensures r == [] ==> GetSetting("agent_id").None? || GetSetting("agent_id") == Some("")
      ensures |r| > 1 ==> "agents" in values && decode(values["agents"]) == Some(JArr(r))
    {
      AgentsOf(values, decode)
    }

    /** `set_agents(db, agents)` */
    method SetAgents(agents: seq<Json>, encode: Encoder) returns (err: Option<Error>)
      modifies this
      ensures (values, err) == SetAgentsOf(old(values), agents, encode)
    {
      err := SetSetting("agents", Some(encode(JArr(agents))));
      if agents != [] {
        var first := agents[0];
        if !first.JObj? {
          return Some(NotADict);
        }
        var id := Find(first.members, "id");
        if id.None? {
          return Some(MissingKey);
        }
        var text := BoundText(id.value);
        if text.Failure? {
          return Some(text.error);
        }
        err := SetSetting("agent_id", text.value);
      }
    }
  }

  /** What `set_agents` stores, `get_agents` reads back: a non-empty list
      whose JSON text decodes to itself (and the empty text decodes to
      nothing, as `json.loads("")` raises) comes back as it was, whether or not
      writing the first agent's id afterwards raised. */
  lemma AgentsRoundTrip(values: map<string, string>, agents: seq<Json>, encode: Encoder, decode: Decoder)
    requires agents != [] && decode(encode(JArr(agents))) == Some(JArr(agents)) && decode("") == None
    ensures AgentsOf(SetAgentsOf(values, agents, encode).0, decode) == agents
  {
    var saved := values["agents" := encode(JArr(agents))];
    assert AgentsOf(saved, decode) == agents;
    if FirstAgentId(agents).Success? && FirstAgentId(agents).value.Some? {
      assert Setting(saved["agent_id" := FirstAgentId(agents).value.value], "agents") == Setting(saved, "agents");
    }
  }

  /** After `set_agents` of a non-empty list: `agent_id` holds the first
      agent's id when it is a string, number or boolean; otherwise the call
      raises (the first agent is not a dict, has no `id`, or its id is null,
      a list, a dict or an integer beyond 64 bits) and `agent_id` keeps its
      old value. */
  lemma SetAgentsLegacyKey(values: map<string, string>, agents: seq<Json>, encode: Encoder)
    requires agents != []
    ensures var (after, err) := SetAgentsOf(values, agents, encode);
      && (err == None <==> FirstAgentId(agents).Success? && FirstAgentId(agents).value.Some?)
      && (err == None ==> Setting(after, "agent_id") == FirstAgentId(agents).value)
      && (err != None ==> Setting(after, "agent_id") == Setting(values, "agent_id"))
      && (!agents[0].JObj? ==> err == Some(NotADict))
      && (agents[0].JObj? && Find(agents[0].members, "id").None? ==> err == Some(MissingKey))
      && ((agents[0].JObj? && Find(agents[0].members, "id").Some? && Find(agents[0].members, "id").value.JInt?
           && !FitsInt64(Find(agents[0].members, "id").value.n)) ==> err == Some(Unbindable))
      && (forall k :: k != "agents" && k != "agent_id" ==> Setting(after, k) == Setting(values, k))
  {
    var saved := values["agents" := encode(JArr(agents))];
    if !agents[0].JObj? {
      assert FirstAgentId(agents) == Failure(NotADict);
    }
  }

  /** `set_agents([])` does not clear `agent_id`: `get_agents` then returns
      the agent of the older setting again, if there is one. */
  lemma EmptyAgentsFallBack(values: map<string, string>, encode: Encoder, decode: Decoder)
    requires decode(encode(JArr([]))) == Some(JArr([]))
    ensures AgentsOf(SetAgentsOf(values, [], encode).0, decode) == LegacyAgents(values)
    ensures Setting(values, "agent_id").Some? && Setting(values, "agent_id").value != "" ==>
              |AgentsOf(SetAgentsOf(values, [], encode).0, decode)| == 1
  {
    var saved := values["agents" := encode(JArr([]))];
    assert Setting(saved, "agent_id") == Setting(values, "agent_id");
  }

  /** The fallback list: one agent exactly when `agent_id` is set and not
      empty, with that id and a name that is the id cut to twelve
      characters. */
  lemma LegacyAgentsShape(values: map<string, string>)
    ensures var r := LegacyAgents(values);
      && |r| <= 1
      && (|r| == 1 <==> "agent_id" in values && values["agent_id"] != "")
      && (|r| == 1 ==>
            var id := values["agent_id"];
            && r[0].JObj?
            && Get(r[0].members, "id") == JStr(id)
            && Get(r[0].members, "name").JStr?
            && var name := Get(r[0].members, "name").s;
               |name| == (if |id| < 12 then |id| else 12) && name <= id)
  {
    if "agent_id" in values && values["agent_id"] != "" {
      var id := values["agent_id"];
      var ms := [("id", JStr(id)), ("name", JStr(if |id| <= 12 then id else id[..12]))];
      assert Find(ms, "id") == Some(JStr(id));
      assert Find(ms, "name") == Some(JStr(if |id| <= 12 then id else id[..12]));
    }
  }
}
