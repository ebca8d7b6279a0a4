/** The provider's conversation list, read page by page
    (elevenlabs_client.py). The HTTP exchange is a function from the query
    parameters of a request to the decoded reply body, or to the error
    `raise_for_status()` raises. */
module ProviderClient {
  import opened JsonValue
  import opened Outcomes

  /** The page size every list request asks for. */
  const PageSize := 100

  /** Query parameters, in the order the dict receives them. */
  type Params = seq<(string, Json)>

  /** The list endpoint: the reply to a request with the given parameters. */
  type Server = Params -> Result<Json>

  /** `if x:` for an optional integer argument: None and 0 are unset. */
  predicate IsSet(x: Option<int>) {
    x.Some? && x.value != 0
  }

  /** The three parameters every list request starts with. */
  function FixedParams(agentId: string, pageSize: int): Params {
    [("agent_id", JStr(agentId)), ("page_size", JInt(pageSize)), ("summary_mode", JStr("include"))]
  }

  /** The parameters `list_conversations` sends: the fixed ones, then each
      optional one, in this order, when it is truthy. */
  function QueryParams(agentId: string, after: Option<int>, before: Option<int>, pageSize: int,
                       cursor: Json, callSuccessful: Option<string>): (r: Params)
    ensures 3 <= |r| <= 7 && r[..3] == FixedParams(agentId, pageSize)
  {
    var p0 := FixedParams(agentId, pageSize);
    var p1 := if IsSet(after) then p0 + [("call_start_after_unix", JInt(after.value))] else p0;
    var p2 := if IsSet(before) then p1 + [("call_start_before_unix", JInt(before.value))] else p1;
    var p3 := if Truthy(cursor) then p2 + [("cursor", cursor)] else p2;
    if callSuccessful.Some? && callSuccessful.value != "" then p3 + [("call_successful", JStr(callSuccessful.value))]
    else p3
  }

  /** Every request carries the agent, the page size and the summary mode
      first; a window bound, the cursor and the outcome filter are present
      exactly when truthy, so a bound of 0 or an empty cursor is left out. */
  lemma QueryParamsContents(agentId: string, after: Option<int>, before: Option<int>, pageSize: int,
                            cursor: Json, callSuccessful: Option<string>)
    ensures var r := QueryParams(agentId, after, before, pageSize, cursor, callSuccessful);
      && |r| >= 3
      && r[..3] == FixedParams(agentId, pageSize)
      && Find(r, "call_start_after_unix") == (if IsSet(after) then Some(JInt(after.value)) else None)
      && Find(r, "call_start_before_unix") == (if IsSet(before) then Some(JInt(before.value)) else None)
      && Find(r, "cursor") == (if Truthy(cursor) then Some(cursor) else None)
      && Find(r, "call_successful")
         == (if callSuccessful.Some? && callSuccessful.value != "" then Some(JStr(callSuccessful.value)) else None)
  {
    var p0 := FixedParams(agentId, pageSize);
    FindAbsent(p0, "call_start_after_unix");
    FindAbsent(p0, "call_start_before_unix");
    FindAbsent(p0, "cursor");
    FindAbsent(p0, "call_successful");
    var p1 := if IsSet(after) then p0 + [("call_start_after_unix", JInt(after.value))] else p0;
    if IsSet(after) {
      FindAppendAll(p0, "call_start_after_unix", JInt(after.value));
    }
    var p2 := if IsSet(before) then p1 + [("call_start_before_unix", JInt(before.value))] else p1;
    if IsSet(before) {
      FindAppendAll(p1, "call_start_before_unix", JInt(before.value));
    }
    var p3 := if Truthy(cursor) then p2 + [("cursor", cursor)] else p2;
    if Truthy(cursor) {
      FindAppendAll(p2, "cursor", cursor);
    }
    if callSuccessful.Some? && callSuccessful.value != "" {
      FindAppendAll(p3, "call_successful", JStr(callSuccessful.value));
    }
    var r := QueryParams(agentId, after, before, pageSize, cursor, callSuccessful);
    assert r[..3] == p0 by {
      assert p1[..3] == p0 && p2[..3] == p0 && p3[..3] == p0;
    }
  }

  /** `list_conversations` building `params` in place. */
  method ListParams(agentId: string, after: Option<int>, before: Option<int>, pageSize: int,
                    cursor: Json, callSuccessful: Option<string>) returns (params: Params)
    ensures params == QueryParams(agentId, after, before, pageSize, cursor, callSuccessful)
  {
    params := FixedParams(agentId, pageSize);
    if IsSet(after) {
      params := params + [("call_start_after_unix", JInt(after.value))];
    }
    if IsSet(before) {
      params := params + [("call_start_before_unix", JInt(before.value))];
    }
    if Truthy(cursor) {
      params := params + [("cursor", cursor)];
    }
    if callSuccessful.Some? && callSuccessful.value != "" {
      params := params + [("call_successful", JStr(callSuccessful.value))];
    }
  }

  /** What `list.extend(x)` appends: a list's elements, a dict's keys, a
      string's characters; any other value is not iterable. */
  function Elements(x: Json): Result<seq<Json>>
  {
    match x
    case JArr(xs) => Success(xs)
    case JObj(ms) => Success(Keys(ms))
    case JStr(s) => Success(Chars(s))
    case _ => Failure(NotIterable)
  }

  /** Iterating a dict yields its keys, in order. */
  function Keys(ms: seq<(string, Json)>): (r: seq<Json>)
    ensures |r| == |ms| && forall i :: 0 <= i < |ms| ==> r[i] == JStr(ms[i].0)
  {
    if ms == [] then [] else [JStr(ms[0].0)] + Keys(ms[1..])
  }

  /** Iterating a string yields its characters as one-character strings. */
  function Chars(s: string): (r: seq<Json>)
    ensures |r| == |s| && forall i :: 0 <= i < |s| ==> r[i] == JStr([s[i]])
  {
    if s == [] then [] else [JStr([s[0]])] + Chars(s[1..])
  }

  /** One reply as the loop reads it: the conversations it adds and, when
      the loop goes on, the cursor for the next request. */
  datatype Page = Page(items: seq<Json>, next: Option<Json>)

  function ReadPage(body: Json): Result<Page>
  {
    match body
    case JObj(ms) =>
      (match Elements(GetOr(ms, "conversations", JArr([])))
       case Failure(e) => Failure(e)
       case Success(items) =>
         if !Truthy(GetOr(ms, "has_more", JBool(false))) then Success(Page(items, None))
         else if !Truthy(Get(ms, "next_cursor")) then Success(Page(items, None))
         else Success(Page(items, Some(Get(ms, "next_cursor")))))
    case _ => Failure(NotADict)
  }

  /** What `extend` appends is the list itself, or as many entries as the
      dict has keys or the string has characters; other values fail. */
  lemma ElementsContents(x: Json)
    ensures x.JArr? ==> Elements(x) == Success(x.items)
    ensures Elements(x).Success? <==> x.JArr? || x.JObj? || x.JStr?
    ensures x.JObj? ==> |Elements(x).value| == |x.members|
    ensures x.JStr? ==> |Elements(x).value| == |x.s|
    ensures !Elements(x).Success? ==> Elements(x) == Failure(NotIterable)
  {
  }

  /** A reply body that is not a dict fails; otherwise the page holds the
      elements of `conversations` (default `[]`), and the loop goes on
      exactly when `has_more` (default False) and `next_cursor` are both
      truthy, with that cursor. */
  lemma ReadPageContents(body: Json)
    ensures !body.JObj? ==> ReadPage(body) == Failure(NotADict)
    ensures body.JObj? ==> var list := Elements(GetOr(body.members, "conversations", JArr([])));
      && (ReadPage(body).Success? <==> list.Success?)
      && (ReadPage(body).Success? ==> ReadPage(body).value.items == list.value)
    ensures ReadPage(body).Success? ==>
      && (ReadPage(body).value.next.Some? <==>
            Truthy(GetOr(body.members, "has_more", JBool(false))) && Truthy(Get(body.members, "next_cursor")))
      && (ReadPage(body).value.next.Some? ==> ReadPage(body).value.next.value == Get(body.members, "next_cursor"))
  {
  }

  /** A page without a `conversations` key adds nothing. */
  lemma MissingListAddsNothing(ms: seq<(string, Json)>)
    requires Find(ms, "conversations").None?
    ensures ReadPage(JObj(ms)).Success? && ReadPage(JObj(ms)).value.items == []
  {
  }

  /** The agent and time window every request of one fetch repeats. */
  datatype Window = Window(agentId: string, after: Option<int>, before: Option<int>)

  function Request(w: Window, cursor: Json): Params {
    QueryParams(w.agentId, w.after, w.before, PageSize, cursor, None)
  }

  /** The outcome of `fetch_all_conversations`. `PageLimit` is the model's
      own: the provider still offered more pages after the page budget. */
  datatype Fetch = Fetched(conversations: seq<Json>) | FetchFailed(error: Error) | PageLimit

  /** `items` in front of what the rest of the fetch returns. */
  function Prepend(items: seq<Json>, rest: Fetch): Fetch {
    if rest.Fetched? then Fetched(items + rest.conversations) else rest
  }

  /** A reply as the loop reads it: the request's error, or its page. */
  function ReadReply(reply: Result<Json>): (r: Result<Page>)
    ensures reply.Failure? ==> r == Failure(reply.error)
    ensures reply.Success? ==> r == ReadPage(reply.value)
  {
    match reply
    case Failure(e) => Failure(e)
    case Success(body) => ReadPage(body)
  }

  /** The fetch from `cursor` on, reading at most `fuel` pages. */
  function Paginate(server: Server, w: Window, cursor: Json, fuel: nat): (r: Fetch)
    ensures fuel == 0 ==> r == PageLimit
    ensures r.Fetched? ==> fuel > 0 && ReadReply(server(Request(w, cursor))).Success?
    ensures r.Fetched? ==> ReadReply(server(Request(w, cursor))).value.items <= r.conversations
    decreases fuel
  {
    if fuel == 0 then PageLimit
    else
      match ReadReply(server(Request(w, cursor)))
      case Failure(e) => FetchFailed(e)
      case Success(page) =>
        if page.next.None? then Fetched(page.items)
        else Prepend(page.items, Paginate(server, w, page.next.value, fuel - 1))
  }

  /** `fetch_all_conversations(agent_id, start_after_unix, start_before_unix)`,
      reading at most `maxPages` pages. */
  method FetchAllConversations(server: Server, w: Window, maxPages: nat) returns (r: Fetch)
    ensures r == Paginate(server, w, JNull, maxPages)
  {
    var all: seq<Json> := [];
    var cursor := JNull;
    var fuel := maxPages;
    while true
      invariant Prepend(all, Paginate(server, w, cursor, fuel)) == Paginate(server, w, JNull, maxPages)
      decreases fuel
    {
      if fuel == 0 {
        return PageLimit;
      }
      var params := ListParams(w.agentId, w.after, w.before, PageSize, cursor, None);
      var reply := server(params);
      var page := ReadReply(reply);
      if page.Failure? {
        PaginateStep(server, w, cursor, fuel);
        return FetchFailed(page.error);
      }
      PaginateStep(server, w, cursor, fuel);
      if page.value.next.None? {
        return Fetched(all + page.value.items);
      }
      PrependTwice(all, page.value.items, Paginate(server, w, page.value.next.value, fuel - 1));
      all, cursor, fuel := all + page.value.items, page.value.next.value, fuel - 1;
    }
  }

  /** One page of the fetch, and the rest of it. */
  lemma PaginateStep(server: Server, w: Window, cursor: Json, fuel: nat)
    requires fuel > 0
    ensures var page := ReadReply(server(Request(w, cursor)));
      Paginate(server, w, cursor, fuel)
      == if page.Failure? then FetchFailed(page.error)
         else if page.value.next.None? then Fetched(page.value.items)
         else Prepend(page.value.items, Paginate(server, w, page.value.next.value, fuel - 1))
  {
  }

  lemma PrependTwice(a: seq<Json>, b: seq<Json>, rest: Fetch)
    ensures Prepend(a, Prepend(b, rest)) == Prepend(a + b, rest)
  {
    if rest.Fetched? {
      assert a + (b + rest.conversations) == (a + b) + rest.conversations;
    }
  }

  // ---------------------------------------------------------------------
  // The requests one fetch makes, as an independent record of the loop.

  /** The cursor of each request the fetch sends from `cursor` on, with
      the reply, up to the first failure or the last page. */
  function Exchanges(server: Server, w: Window, cursor: Json, fuel: nat): seq<(Json, Result<Json>)>
    decreases fuel
  {
    if fuel == 0 then []
    else
      var reply := server(Request(w, cursor));
      var page := ReadReply(reply);
      [(cursor, reply)] +
        if page.Success? && page.value.next.Some? then Exchanges(server, w, page.value.next.value, fuel - 1)
        else []
  }

  /** The conversations a reply adds, or none when it cannot be read. */
  function ItemsOf(reply: Result<Json>): seq<Json> {
    if ReadReply(reply).Success? then ReadReply(reply).value.items else []
  }

  function ConcatItems(ex: seq<(Json, Result<Json>)>): seq<Json> {
    if ex == [] then [] else ItemsOf(ex[0].1) + ConcatItems(ex[1..])
  }

  /** Each reply answers the request for its cursor, which repeats the
      agent, the page size, the summary mode and the window. The first
      request carries the starting cursor, and each later one the
      `next_cursor` of the reply before it, which the loop follows only when
      that reply said `has_more` and gave a truthy cursor. */
  lemma {:induction false} RequestsFollowCursors(server: Server, w: Window, cursor: Json, fuel: nat)
    ensures var ex := Exchanges(server, w, cursor, fuel);
      && |ex| <= fuel
      && (forall k :: 0 <= k < |ex| ==> ex[k].1 == server(Request(w, ex[k].0)))
      && (fuel > 0 ==> |ex| > 0 && ex[0].0 == cursor)
      && (forall k :: 0 <= k < |ex| - 1 ==>
            && ReadReply(ex[k].1).Success?
            && ReadReply(ex[k].1).value.next == Some(ex[k + 1].0))
    decreases fuel
  {
    if fuel > 0 {
      var reply := server(Request(w, cursor));
      var page := ReadReply(reply);
      var ex := Exchanges(server, w, cursor, fuel);
      if page.Success? && page.value.next.Some? {
        var c := page.value.next.value;
        RequestsFollowCursors(server, w, c, fuel - 1);
        var rest := Exchanges(server, w, c, fuel - 1);
        assert ex == [(cursor, reply)] + rest;
        forall k | 0 < k < |ex| ensures ex[k] == rest[k - 1] {
        }
      } else {
        assert ex == [(cursor, reply)];
      }
    }
  }

  /** A completed fetch is the in-order concatenation of the conversations
      of every page it read; each of them was read without error and the
      last one ended the loop. */
  lemma {:induction false} FetchIsConcatenation(server: Server, w: Window, cursor: Json, fuel: nat)
    requires Paginate(server, w, cursor, fuel).Fetched?
    ensures var ex := Exchanges(server, w, cursor, fuel);
      && |ex| > 0
      && (forall k :: 0 <= k < |ex| ==> ReadReply(ex[k].1).Success?)
      && ReadReply(ex[|ex| - 1].1).value.next.None?
      && Paginate(server, w, cursor, fuel).conversations == ConcatItems(ex)
    decreases fuel
  {
    var reply := server(Request(w, cursor));
    var page := ReadReply(reply);
    var ex := Exchanges(server, w, cursor, fuel);
    if page.value.next.Some? {
      var c := page.value.next.value;
      assert Paginate(server, w, cursor, fuel) == Prepend(page.value.items, Paginate(server, w, c, fuel - 1));
      FetchIsConcatenation(server, w, c, fuel - 1);
      var rest := Exchanges(server, w, c, fuel - 1);
      assert ex == [(cursor, reply)] + rest;
      assert ex[1..] == rest;
      forall k | 0 < k < |ex| ensures ex[k] == rest[k - 1] {
      }
    } else {
      assert ex == [(cursor, reply)];
      assert ConcatItems(ex) == ItemsOf(reply) + ConcatItems([]);
    }
  }

  /** A failed fetch stops at the first reply that fails or cannot be read,
      with that reply's error; the conversations of the pages before it are
      not returned. */
  lemma {:induction false} FailureAbortsFetch(server: Server, w: Window, cursor: Json, fuel: nat)
    requires Paginate(server, w, cursor, fuel).FetchFailed?
    ensures var ex := Exchanges(server, w, cursor, fuel);
      && |ex| > 0
      && (forall k :: 0 <= k < |ex| - 1 ==> ReadReply(ex[k].1).Success?)
      && ReadReply(ex[|ex| - 1].1) == Failure(Paginate(server, w, cursor, fuel).error)
    decreases fuel
  {
    var reply := server(Request(w, cursor));
    var page := ReadReply(reply);
    var ex := Exchanges(server, w, cursor, fuel);
    if page.Success? && page.value.next.Some? {
      var c := page.value.next.value;
      assert Paginate(server, w, cursor, fuel) == Prepend(page.value.items, Paginate(server, w, c, fuel - 1));
      FailureAbortsFetch(server, w, c, fuel - 1);
      var rest := Exchanges(server, w, c, fuel - 1);
      assert ex == [(cursor, reply)] + rest;
      forall k | 0 < k < |ex| ensures ex[k] == rest[k - 1] {
      }
    } else {
      assert ex == [(cursor, reply)];
    }
  }

  /** The fetch runs out of pages only after sending `fuel` requests, every
      one answered by a readable page that asked for more. */
  lemma {:induction false} PageLimitUsesAllPages(server: Server, w: Window, cursor: Json, fuel: nat)
    requires Paginate(server, w, cursor, fuel).PageLimit?
    ensures var ex := Exchanges(server, w, cursor, fuel);
      && |ex| == fuel
      && forall k :: 0 <= k < |ex| ==> ReadReply(ex[k].1).Success? && ReadReply(ex[k].1).value.next.Some?
    decreases fuel
  {
    if fuel > 0 {
      PageLimitStep(server, w, cursor, fuel);
      var reply := server(Request(w, cursor));
      var c := ReadReply(reply).value.next.value;
      PageLimitUsesAllPages(server, w, c, fuel - 1);
      ExchangesStep(server, w, cursor, fuel);
      var ex := Exchanges(server, w, cursor, fuel);
      var rest := Exchanges(server, w, c, fuel - 1);
      forall k | 0 < k < |ex| ensures ex[k] == rest[k - 1] {
      }
    }
  }

  lemma PageLimitStep(server: Server, w: Window, cursor: Json, fuel: nat)
    requires fuel > 0
    requires Paginate(server, w, cursor, fuel).PageLimit?
    ensures var page := ReadReply(server(Request(w, cursor)));
      page.Success? && page.value.next.Some? && Paginate(server, w, page.value.next.value, fuel - 1).PageLimit?
  {
  }

  /** One request of the trace, and the rest of it. */
  lemma ExchangesStep(server: Server, w: Window, cursor: Json, fuel: nat)
    requires fuel > 0
    ensures var reply := server(Request(w, cursor));
            var page := ReadReply(reply);
      Exchanges(server, w, cursor, fuel)
      == if page.Success? && page.value.next.Some?
         then [(cursor, reply)] + Exchanges(server, w, page.value.next.value, fuel - 1)
         else [(cursor, reply)]
  {
  }
}
