/** The phone extraction cascade (sync_service.py `_extract_phone_numbers`):
    six sources tried in order, each only for a role still unset. */
module PhoneResolver {
  import opened JsonValue
  import opened PhoneSearch

  /** The two local variables `agent_phone` and `client_phone`; JNull is
      Python's None. Before the final normalisation they hold whatever
      value the winning source had. */
  datatype Phones = Phones(agent: Json, client: Json)

  /** `if not current and v: current = v` */
  function FillIfEmpty(current: Json, v: Json): Json {
    if !Truthy(current) && Truthy(v) then v else current
  }

  /** `if not current: current = v` */
  function AssignIfEmpty(current: Json, v: Json): Json {
    if !Truthy(current) then v else current
  }

  /** Sources 1 and 2: `metadata.body`, Twilio `To`/`From` first (these are
      taken whenever truthy), then SIP `to_number`/`from_number`, lower-case
      `to`/`from`, and Twilio `Called`/`Caller`. */
  function FromBody(meta: seq<(string, Json)>): Phones {
    match NonEmptyDict(meta, "body")
    case None => Phones(JNull, JNull)
    case Some(body) =>
      var a0 := if Truthy(Get(body, "To")) then Get(body, "To") else JNull;
      var c0 := if Truthy(Get(body, "From")) then Get(body, "From") else JNull;
      var a1 := FillIfEmpty(a0, Get(body, "to_number"));
      var c1 := FillIfEmpty(c0, Get(body, "from_number"));
      var a2 := FillIfEmpty(a1, Get(body, "to"));
      var c2 := FillIfEmpty(c1, Get(body, "from"));
      var a3 := FillIfEmpty(a2, Get(body, "Called"));
      var c3 := FillIfEmpty(c2, Get(body, "Caller"));
      Phones(a3, c3)
  }

  /** Source 3: `metadata.phone_call`, two `or` chains per role. An unset
      role takes the chain's value even when that value is falsy. */
  function FromPhoneCall(meta: seq<(string, Json)>, s: Phones): Phones {
    match NonEmptyDict(meta, "phone_call")
    case None => s
    case Some(pc) =>
      var a1 := AssignIfEmpty(s.agent,
        OrChain([Get(pc, "agent_number"), Get(pc, "to_number"), Get(pc, "to")]));
      var c1 := AssignIfEmpty(s.client,
        OrChain([Get(pc, "external_number"), Get(pc, "from_number"), Get(pc, "from")]));
      var a2 := AssignIfEmpty(a1, OrChain([Get(pc, "agent_phone_number"), Get(pc, "called_number")]));
      var c2 := AssignIfEmpty(c1, OrChain([Get(pc, "caller_phone_number"), Get(pc, "caller_number")]));
      Phones(a2, c2)
  }

  /** Source 4: the synonyms in
      `conversation_initiation_client_data.dynamic_variables`. */
  function FromDynamicVariables(detail: seq<(string, Json)>, s: Phones): Phones {
    match NonEmptyDict(detail, "conversation_initiation_client_data")
    case None => s
    case Some(cd) =>
      match NonEmptyDict(cd, "dynamic_variables")
      case None => s
      case Some(dyn) =>
        Phones(
          AssignIfEmpty(s.agent, OrChain([Get(dyn, "agent_number"), Get(dyn, "to_number"),
            Get(dyn, "To"), Get(dyn, "agent_phone"), Get(dyn, "called_number"), Get(dyn, "Called")])),
          AssignIfEmpty(s.client, OrChain([Get(dyn, "customer_number"), Get(dyn, "from_number"),
            Get(dyn, "From"), Get(dyn, "client_phone"), Get(dyn, "caller_number"), Get(dyn, "Caller"),
            Get(dyn, "phone"), Get(dyn, "phone_number"), Get(dyn, "customer_phone")])))
  }

  /** What `_deep_search_in_dict(meta, ...)` leaves in a fresh `deep_result`. */
  function KeywordSearch(meta: seq<(string, Json)>, s: Phones): Found {
    SearchMembers(JObj(meta), 0, Truthy(s.agent), Truthy(s.client), Found(None, None))
  }

  /** Source 5: the keyword-guided search of the whole metadata dict. */
  function FromKeywordSearch(meta: seq<(string, Json)>, s: Phones): Phones {
    if !Truthy(s.agent) || !Truthy(s.client) then
      var f := KeywordSearch(meta, s);
      Phones(
        if !Truthy(s.agent) && f.agent.Some? && f.agent.value != "" then JStr(f.agent.value) else s.agent,
        if !Truthy(s.client) && f.client.Some? && f.client.value != "" then JStr(f.client.value) else s.client)
    else s
  }

  /** Path fragments that mark an agent number in the pattern search. */
  const AgentPathKeys: seq<string> := ["agent", "to_number", ".to", "called", "voicebot", "bot_number"]

  /** Path fragments that mark a client number in the pattern search. */
  const ClientPathKeys: seq<string> :=
    ["client", "customer", "from_number", ".from", "caller", "external", "user_phone"]

  predicate AgentPath(c: Candidate) {
    ContainsAny(Lower(c.path), AgentPathKeys)
  }

  predicate ClientPath(c: Candidate) {
    ContainsAny(Lower(c.path), ClientPathKeys)
  }

  /** The classification loop: each candidate fills at most one role, the
      agent first (`if ... elif ...`), and only by a keyword in its path. */
  function Classify(cs: seq<Candidate>, s: Phones): Phones {
    if cs == [] then s
    else
      var c := cs[0];
      var s' :=
        if !Truthy(s.agent) && AgentPath(c) then Phones(JStr(c.value), s.client)
        else if !Truthy(s.client) && ClientPath(c) then Phones(s.agent, JStr(c.value))
        else s;
      Classify(cs[1..], s')
  }

  /** Source 6: the pattern search of the whole detail document, keyword
      classification, then the positional fallback. */
  function FromPatternSearch(detail: seq<(string, Json)>, s: Phones): Phones {
    if !Truthy(s.agent) || !Truthy(s.client) then
      var pv := DeepFind(JObj(detail), "");
      if pv == [] then s
      else
        var s1 := Classify(pv, s);
        if !Truthy(s1.agent) && !Truthy(s1.client) && |pv| >= 2 then
          Phones(JStr(pv[0].value), JStr(pv[1].value))
        else if !Truthy(s1.agent) && !Truthy(s1.client) && |pv| == 1 then
          Phones(s1.agent, JStr(pv[0].value))
        else s1
    else s
  }

  /** `if v: v = str(v).strip()`: a truthy value becomes a string with no
      white space at either end (possibly ""); a falsy one is kept. */
  function Normalise(v: Json): (r: Json)
    ensures Truthy(v) ==> r.JStr? && Strip(r.s) == r.s
    ensures !Truthy(v) ==> r == v
  {
    if Truthy(v) then
      StripIdempotent(PyStr(v));
      JStr(Strip(PyStr(v)))
    else v
  }

  /** The values after each source, in cascade order. */
  function AfterBody(meta: seq<(string, Json)>): Phones {
    FromBody(meta)
  }

  function AfterPhoneCall(detail: seq<(string, Json)>, meta: seq<(string, Json)>): Phones {
    FromPhoneCall(meta, AfterBody(meta))
  }

  function AfterDynamicVariables(detail: seq<(string, Json)>, meta: seq<(string, Json)>): Phones {
    FromDynamicVariables(detail, AfterPhoneCall(detail, meta))
  }

  function AfterKeywordSearch(detail: seq<(string, Json)>, meta: seq<(string, Json)>): Phones {
    FromKeywordSearch(meta, AfterDynamicVariables(detail, meta))
  }

  function AfterPatternSearch(detail: seq<(string, Json)>, meta: seq<(string, Json)>): Phones {
    FromPatternSearch(detail, AfterKeywordSearch(detail, meta))
  }

  /** `_extract_phone_numbers(detail, meta)`: a pure function of the two
      dicts, the normalised values of the first source that resolved each role. */
  function ExtractPhoneNumbers(detail: seq<(string, Json)>, meta: seq<(string, Json)>): (r: Phones)
    ensures r.agent.JStr? || !Truthy(r.agent)
    ensures r.client.JStr? || !Truthy(r.client)
    ensures r.agent.JStr? ==> Strip(r.agent.s) == r.agent.s
    ensures r.client.JStr? ==> Strip(r.client.s) == r.client.s
  {
    var s := AfterPatternSearch(detail, meta);
    Phones(Normalise(s.agent), Normalise(s.client))
  }

  lemma StripIdempotent(s: string)
    ensures Strip(Strip(s)) == Strip(s)
  {
    StripShape(s);
    StripStripped(Strip(s));
  }

  // ---------------------------------------------------------------------
  // Each later source leaves a resolved role alone.

  lemma {:induction false} ClassifyKeepsResolved(cs: seq<Candidate>, s: Phones)
    ensures Truthy(s.agent) ==> Classify(cs, s).agent == s.agent
    ensures Truthy(s.client) ==> Classify(cs, s).client == s.client
  {
    if cs != [] {
      var c := cs[0];
      var s' :=
        if !Truthy(s.agent) && AgentPath(c) then Phones(JStr(c.value), s.client)
        else if !Truthy(s.client) && ClientPath(c) then Phones(s.agent, JStr(c.value))
        else s;
      ClassifyKeepsResolved(cs[1..], s');
    }
  }

  /** Sources 3 to 6 never replace a truthy value. */
  lemma LaterSourcesKeepResolved(detail: seq<(string, Json)>, meta: seq<(string, Json)>, s: Phones)
    ensures Truthy(s.agent) ==> FromPhoneCall(meta, s).agent == s.agent
    ensures Truthy(s.client) ==> FromPhoneCall(meta, s).client == s.client
    ensures Truthy(s.agent) ==> FromDynamicVariables(detail, s).agent == s.agent
    ensures Truthy(s.client) ==> FromDynamicVariables(detail, s).client == s.client
    ensures Truthy(s.agent) ==> FromKeywordSearch(meta, s).agent == s.agent
    ensures Truthy(s.client) ==> FromKeywordSearch(meta, s).client == s.client
    ensures Truthy(s.agent) ==> FromPatternSearch(detail, s).agent == s.agent
    ensures Truthy(s.client) ==> FromPatternSearch(detail, s).client == s.client
  {
    ClassifyKeepsResolved(DeepFind(JObj(detail), ""), s);
  }

  /** Cascade order: once a source resolves a role, the output for that
      role is the normalised value from that source. */
  lemma EarliestSourceWins(detail: seq<(string, Json)>, meta: seq<(string, Json)>)
    ensures var r := ExtractPhoneNumbers(detail, meta);
      && (Truthy(AfterBody(meta).agent) ==> r.agent == Normalise(AfterBody(meta).agent))
      && (Truthy(AfterBody(meta).client) ==> r.client == Normalise(AfterBody(meta).client))
      && (Truthy(AfterPhoneCall(detail, meta).agent) ==> r.agent == Normalise(AfterPhoneCall(detail, meta).agent))
      && (Truthy(AfterPhoneCall(detail, meta).client) ==> r.client == Normalise(AfterPhoneCall(detail, meta).client))
      && (Truthy(AfterDynamicVariables(detail, meta).agent) ==> r.agent == Normalise(AfterDynamicVariables(detail, meta).agent))
      && (Truthy(AfterDynamicVariables(detail, meta).client) ==> r.client == Normalise(AfterDynamicVariables(detail, meta).client))
      && (Truthy(AfterKeywordSearch(detail, meta).agent) ==> r.agent == Normalise(AfterKeywordSearch(detail, meta).agent))
      && (Truthy(AfterKeywordSearch(detail, meta).client) ==> r.client == Normalise(AfterKeywordSearch(detail, meta).client))
  {
    var s1 := AfterBody(meta);
    var s3 := AfterPhoneCall(detail, meta);
    var s4 := AfterDynamicVariables(detail, meta);
    var s5 := AfterKeywordSearch(detail, meta);
    LaterSourcesKeepResolved(detail, meta, s1);
    LaterSourcesKeepResolved(detail, meta, s3);
    LaterSourcesKeepResolved(detail, meta, s4);
    LaterSourcesKeepResolved(detail, meta, s5);
  }

  /** A truthy Twilio `body.To` (`body.From`) decides the agent (client)
      number, whatever any later source holds. */
  lemma TwilioBodyWins(detail: seq<(string, Json)>, meta: seq<(string, Json)>, body: seq<(string, Json)>)
    requires NonEmptyDict(meta, "body") == Some(body)
    ensures Truthy(Get(body, "To")) ==> ExtractPhoneNumbers(detail, meta).agent == Normalise(Get(body, "To"))
    ensures Truthy(Get(body, "From")) ==> ExtractPhoneNumbers(detail, meta).client == Normalise(Get(body, "From"))
  {
    EarliestSourceWins(detail, meta);
  }

  // ---------------------------------------------------------------------
  // The pattern search's classification and positional fallback.

  /** The first candidate whose path marks it as the agent's number. */
  function FirstAgentPath(cs: seq<Candidate>): Option<Candidate> {
    if cs == [] then None else if AgentPath(cs[0]) then Some(cs[0]) else FirstAgentPath(cs[1..])
  }

  /** An unset agent is taken by the first candidate with an agent keyword
      in its path, whatever the client side does; with no such candidate
      it stays as it was. */
  lemma {:induction false} ClassifyAgentIsFirstMatch(cs: seq<Candidate>, s: Phones)
    requires forall c :: c in cs ==> PhoneShaped(c.value)
    requires !Truthy(s.agent)
    ensures Classify(cs, s).agent
         == match FirstAgentPath(cs) case Some(c) => JStr(c.value) case None => s.agent
  {
    if cs != [] {
      var c := cs[0];
      assert c in cs;
      if AgentPath(c) {
        assert Truthy(JStr(c.value));
        ClassifyKeepsResolved(cs[1..], Phones(JStr(c.value), s.client));
      } else {
        var s' := if !Truthy(s.client) && ClientPath(c) then Phones(s.agent, JStr(c.value)) else s;
        ClassifyAgentIsFirstMatch(cs[1..], s');
      }
    }
  }

  /** The client side is only ever filled from a candidate whose path has a
      client keyword. */
  lemma {:induction false} ClassifyClientFromClientPath(cs: seq<Candidate>, s: Phones)
    ensures Classify(cs, s).client == s.client
         || exists c :: c in cs && ClientPath(c) && Classify(cs, s).client == JStr(c.value)
  {
    if cs != [] {
      var c := cs[0];
      var s' :=
        if !Truthy(s.agent) && AgentPath(c) then Phones(JStr(c.value), s.client)
        else if !Truthy(s.client) && ClientPath(c) then Phones(s.agent, JStr(c.value))
        else s;
      ClassifyClientFromClientPath(cs[1..], s');
      if Classify(cs[1..], s').client != s'.client {
        var c' :| c' in cs[1..] && ClientPath(c') && Classify(cs[1..], s').client == JStr(c'.value);
        assert c' in cs;
      }
    }
  }

  /** With neither role resolved and no keyword in any candidate's path,
      the first candidate goes to the agent and the second to the client;
      a lone candidate goes to the client and the agent stays unset. */
  lemma {:induction false} PositionalFallback(detail: seq<(string, Json)>, s: Phones)
    requires !Truthy(s.agent) && !Truthy(s.client)
    requires forall c :: c in DeepFind(JObj(detail), "") ==> !AgentPath(c) && !ClientPath(c)
    ensures var pv := DeepFind(JObj(detail), "");
      && (|pv| >= 2 ==> FromPatternSearch(detail, s) == Phones(JStr(pv[0].value), JStr(pv[1].value)))
      && (|pv| == 1 ==> FromPatternSearch(detail, s) == Phones(s.agent, JStr(pv[0].value)))
      && (pv == [] ==> FromPatternSearch(detail, s) == s)
  {
    ClassifyUnmarked(DeepFind(JObj(detail), ""), s);
  }

  lemma {:induction false} ClassifyUnmarked(cs: seq<Candidate>, s: Phones)
    requires forall c :: c in cs ==> !AgentPath(c) && !ClientPath(c)
    ensures Classify(cs, s) == s
  {
    if cs != [] {
      assert cs[0] in cs;
      ClassifyUnmarked(cs[1..], s);
    }
  }

  // ---------------------------------------------------------------------
  // The final normalisation.

  /** A non-empty string without surrounding white space normalises to itself. */
  lemma NormaliseStripped(s: string)
    requires s != [] && !IsSpace(s[0]) && !IsSpace(s[|s| - 1])
    ensures Normalise(JStr(s)) == JStr(s)
  {
    StripStripped(s);
  }

  /** A value made only of white space normalises to the empty string,
      which is falsy but not None. */
  lemma BlankNormalisesToEmpty(s: string)
    requires s != [] && forall i :: 0 <= i < |s| ==> IsSpace(s[i])
    ensures Normalise(JStr(s)) == JStr("")
  {
    StripShape(s);
  }

  /** `body.To = "+1000"` decides the agent number over
      `dynamic_variables.agent_number = "+2000"`. */
  lemma BodyBeatsDynamicVariables(detail: seq<(string, Json)>, meta: seq<(string, Json)>, body: seq<(string, Json)>)
    requires body == [("To", JStr("+1000"))] && meta == [("body", JObj(body))]
    requires detail == [("metadata", JObj(meta)), ("conversation_initiation_client_data",
      JObj([("dynamic_variables", JObj([("agent_number", JStr("+2000"))]))]))]
    ensures ExtractPhoneNumbers(detail, meta).agent == JStr("+1000")
  {
    assert NonEmptyDict(meta, "body") == Some(body);
    assert Get(body, "To") == JStr("+1000");
    NormaliseStripped("+1000");
    TwilioBodyWins(detail, meta, body);
  }
}
