/**
 * The private MCP client: one session, one startup-frozen catalog, calls with at most one reconnect.
 *
 * The transport is an adversary: every dial, listing and tool call has its outcome handed in. What the
 * client does to the outside is recorded in a trace of events, and `Call`, `Reconnect` and `Close` are
 * functions on the client's state; the class below is proved to perform exactly these steps.
 */
module Session {
  import opened Text
  import opened Catalog

  datatype Content = TextPart(text: string) | OtherPart

  datatype SendOutcome = SendFailed(message: string) | Answered(content: seq<Content>, isError: bool)

  datatype Dial = DialFailed(message: string) | ListFailed(message: string) | ToolsListed(listed: seq<Listing>)

  /** Everything the transport may decide during one `Call`. */
  datatype CallEnv = CallEnv(first: SendOutcome, dial: Dial, second: SendOutcome)

  /** `call` numbers the `Call` that caused a send; sessions are numbered in the order they are opened. */
  datatype Event =
    | Opened(session: nat)
    | Listed(session: nat, catalog: Catalog)
    | Sent(call: nat, session: nat, tool: string, args: Json, outcome: SendOutcome)
    | Closed(session: nat)

  datatype State = State(session: Option<nat>, tools: Catalog, dials: nat, calls: nat, trace: seq<Event>)

  /** Go's (string, error) pair: a tool error carries both. */
  datatype Returned = Returned(text: string, error: Option<string>)

  const NOT_CONNECTED := "private defi mcp session is not connected"
  const CATALOG_CHANGED := "private defi mcp catalog changed; restart the Lending Agent to synchronize it"
  const TOKEN_REQUIRED := "private defi mcp auth token is required"

  function NotInCatalog(name: string): string {
    "tool " + Quoted(name) + " is not in the startup MCP catalog"
  }

  function ReconnectFailed(cause: string, why: string): string {
    "private defi mcp session failed: " + cause + " (reconnect failed: " + why + ")"
  }

  predicate SessionFailure(error: string) {
    var message := ToLower(error);
    || Contains(message, "409 conflict")
    || Contains(message, "stream id conflicts")
    || Contains(message, "connection closed")
    || Contains(message, "broken session")
    || Contains(message, "client is closing")
    || Contains(message, "hanging get")
    || Contains(message, "failed to reconnect")
    || Contains(message, "consumer stopped")
    || Contains(message, "session is closed")
    || Contains(message, "session not found")
  }

  predicate RetrySafeTool(tool: string) {
    var name := ToLower(TrimSpace(tool));
    || HasPrefix(name, "get_")
    || HasPrefix(name, "list_")
    || HasPrefix(name, "quote_")
    || HasPrefix(name, "build_")
    || HasPrefix(name, "lendora_get_")
    || HasPrefix(name, "lendora_list_")
    || HasPrefix(name, "lendora_quote_")
    || (Contains(name, "_build_") && HasSuffix(name, "_tx"))
    || name == "whoami"
  }

  function ReplyText(content: seq<Content>): string {
    if content == [] then ""
    else
      var last := content[|content| - 1];
      ReplyText(content[..|content| - 1]) + if last.TextPart? then last.text else ""
  }

  // ----- The steps, as functions on the state -----

  datatype Established = Established(result: Result<Catalog, string>, events: seq<Event>)

  /** `connectSession`, opening session number `k` when the dial succeeds. */
  function Establish(k: nat, dial: Dial): Established {
    match dial
    case DialFailed(m) => Established(Err("connect private defi mcp: " + m), [])
    case ListFailed(m) => Established(Err("list private defi mcp tools: " + m), [Opened(k), Closed(k)])
    case ToolsListed(listed) =>
      if Acceptable(listed) then Established(Ok(CatalogOf(listed)), [Opened(k), Listed(k, CatalogOf(listed))])
      else Established(Err(Refusal(listed)), [Opened(k), Closed(k)])
  }

  function OpenedBy(e: Established): nat {
    if e.events == [] then 0 else 1
  }

  function Log(s: State, events: seq<Event>): State {
    s.(trace := s.trace + events)
  }

  /** Forget the session, closing it if there was one. */
  function Drop(s: State): State {
    match s.session
    case None => s
    case Some(k) => Log(s, [Closed(k)]).(session := None)
  }

  function Reconnect(s: State, dial: Dial): (State, Option<string>) {
    var dropped := Drop(s);
    var k := s.dials;
    var e := Establish(k, dial);
    var dialled := Log(dropped, e.events).(dials := k + OpenedBy(e));
    match e.result
    case Err(why) => (dialled, Some(why))
    case Ok(catalog) =>
      if SameCatalog(s.tools, catalog) then (dialled.(session := Some(k)), None)
      else (Log(dialled, [Closed(k)]), Some(CATALOG_CHANGED))
  }

  /** `callTool`: `tag` is the number of the `Call` on whose behalf the tool is sent. */
  function CallTool(s: State, tag: nat, name: string, args: Json, outcome: SendOutcome): (State, SendOutcome) {
    match s.session
    case None => (s, SendFailed(NOT_CONNECTED))
    case Some(k) => (Log(s, [Sent(tag, k, name, args, outcome)]), outcome)
  }

  function Conclude(outcome: SendOutcome): Returned {
    match outcome
    case SendFailed(m) => Returned("", Some(m))
    case Answered(content, isError) =>
      Returned(ReplyText(content), if isError then Some(TrimSpace(ReplyText(content))) else None)
  }

  function Call(s: State, name: string, args: Json, env: CallEnv): (State, Returned) {
    var tag := s.calls;
    var s0 := s.(calls := tag + 1);
    if name !in s.tools then (s0, Returned("", Some(NotInCatalog(name))))
    else
      var (s1, first) := CallTool(s0, tag, name, args, env.first);
      if first.SendFailed? && SessionFailure(first.message) then
        var (s2, failed) := Reconnect(s1, env.dial);
        if failed.Some? then (s2, Returned("", Some(ReconnectFailed(first.message, failed.value))))
        else if RetrySafeTool(name) then
          var (s3, second) := CallTool(s2, tag, name, args, env.second);
          (s3, Conclude(second))
        else (s2, Conclude(first))
      else (s1, Conclude(first))
  }

  function Connect(token: string, dial: Dial): (Result<State, string>, seq<Event>) {
    if TrimSpace(token) == "" then (Err(TOKEN_REQUIRED), [])
    else
      var e := Establish(0, dial);
      match e.result
      case Err(why) => (Err(why), e.events)
      case Ok(catalog) => (Ok(State(Some(0), catalog, 1, 0, e.events)), e.events)
  }

  /** `out` holds the tools called `names`, in that order. */
  predicate Enumerates(tools: Catalog, names: seq<string>, out: seq<Tool>) {
    |out| == |names| && forall i :: 0 <= i < |out| ==> names[i] in tools && out[i] == tools[names[i]]
  }

  lemma {:induction false} EnumeratesAppend(tools: Catalog, names: seq<string>, out: seq<Tool>, name: string)
    requires Enumerates(tools, names, out) && name in tools
    ensures Enumerates(tools, names + [name], out + [tools[name]])
  {
  }

  // ----- The client itself -----

  /**
   * The listing loop of `connectSession` on session `k`: fill the map entry by entry; every exit but the last
   * closes the session.
   */
  method ReadListing(k: nat, listed: seq<Listing>) returns (r: Result<Catalog, string>, ghost events: seq<Event>)
    ensures r == if Acceptable(listed) then Ok(CatalogOf(listed)) else Err(Refusal(listed))
    ensures events == [if r.Ok? then Event.Listed(k, r.value) else Closed(k)]
  {
    hide Acceptable, CatalogOf, Refusal, ReadSoFar, DuplicateTool;
    events := [];
    var tools: Catalog := map[];
    NothingRead(listed);
    for i := 0 to |listed|
      invariant ReadSoFar(listed, i, tools) && events == []
    {
      var tool := listed[i];
      var name := TrimSpace(tool.name);
      ReadOne(listed, i, tools);
      if name == "" || tool.schema == JNull {
        events := events + [Closed(k)];
        return Err(INVALID_TOOL), events;
      }
      if name in tools {
        events := events + [Closed(k)];
        return Err(DuplicateTool(name)), events;
      }
      tools := tools[name := Tool(name, tool.description, tool.schema)];
    }
    ReadAll(listed, tools);
    if |tools| == 0 {
      events := events + [Closed(k)];
      return Err(NO_TOOLS), events;
    }
    events := events + [Event.Listed(k, tools)];
    return Ok(tools), events;
  }

  method ConnectSession(k: nat, dial: Dial) returns (r: Result<Catalog, string>, ghost events: seq<Event>)
    ensures r == Establish(k, dial).result
    ensures events == Establish(k, dial).events
  {
    events := [];
    if dial.DialFailed? {
      return Err("connect private defi mcp: " + dial.message), events;
    }
    events := events + [Opened(k)];
    if dial.ListFailed? {
      events := events + [Closed(k)];
      return Err("list private defi mcp tools: " + dial.message), events;
    }
    ghost var more;
    r, more := ReadListing(k, dial.listed);
    events := events + more;
  }

  class Client {
    var session: Option<nat>
    var tools: Catalog
    var dials: nat
    ghost var calls: nat
    ghost var trace: seq<Event>

    ghost function Now(): State
      reads this
    {
      State(session, tools, dials, calls, trace)
    }

    constructor (tools: Catalog, ghost events: seq<Event>)
      ensures Now() == State(Some(0), tools, 1, 0, events)
    {
      this.session, this.tools, dials, calls, trace := Some(0), tools, 1, 0, events;
    }

    static method Dialled(token: string, dial: Dial)
      returns (r: Result<Client, string>, ghost events: seq<Event>)
      ensures events == Connect(token, dial).1
      ensures r.Ok? <==> Connect(token, dial).0.Ok?
      ensures r.Ok? ==> fresh(r.value) && Connect(token, dial).0 == Ok(r.value.Now())
      ensures r.Err? ==> Connect(token, dial).0 == Err(r.error)
    {
      if TrimSpace(token) == "" {
        return Err(TOKEN_REQUIRED), [];
      }
      var catalog;
      catalog, events := ConnectSession(0, dial);
      if catalog.Err? {
        r := Err(catalog.error);
      } else {
        var c := new Client(catalog.value, events);
        r := Ok(c);
      }
    }

    /** The catalog as a list, in whatever order the map yields its names. */
    method Tools() returns (out: seq<Tool>, ghost names: seq<string>)
      ensures |out| == |tools| && forall n :: n in tools ==> tools[n] in out
      ensures Distinct(names) && Elements(names) == tools.Keys
      ensures Enumerates(tools, names, out)
    {
      out, names := [], [];
      var rest := tools.Keys;
      assert Distinct(names) && Elements(names) == {};
      assert |rest| == |tools|;
      hide Distinct, Elements, Enumerates;
      while rest != {}
        invariant rest <= tools.Keys && Distinct(names) && Elements(names) == tools.Keys - rest
        invariant Enumerates(tools, names, out)
        invariant |out| + |rest| == |tools| && forall n :: n in tools && n !in rest ==> tools[n] in out
        decreases |rest|
      {
        var name :| name in rest;
        assert name !in names by { FoundInElements(names, name); }
        ElementsAppend(names, name);
        EnumeratesAppend(tools, names, out, name);
        out, names := out + [tools[name]], names + [name];
        rest := rest - {name};
      }
    }

    method CallToolOnce(ghost tag: nat, name: string, args: Json, outcome: SendOutcome) returns (r: SendOutcome)
      modifies this`trace
      ensures (Now(), r) == CallTool(old(Now()), tag, name, args, outcome)
    {
      if session == None {
        return SendFailed(NOT_CONNECTED);
      }
      trace := trace + [Sent(tag, session.value, name, args, outcome)];
      return outcome;
    }

    method Reopen(dial: Dial) returns (failed: Option<string>)
      modifies this`session, this`dials, this`trace
      ensures (Now(), failed) == Reconnect(old(Now()), dial)
    {
      var before := session;
      session := None;
      if before.Some? {
        trace := trace + [Closed(before.value)];
      }
      var k := dials;
      var listed;
      ghost var events;
      listed, events := ConnectSession(k, dial);
      trace := trace + events;
      if dial.DialFailed? {
        return Some(listed.error);
      }
      dials := dials + 1;
      if listed.Err? {
        return Some(listed.error);
      }
      var same := CheckSameCatalog(tools, listed.value);
      if !same {
        trace := trace + [Closed(k)];
        return Some(CATALOG_CHANGED);
      }
      session := Some(k);
      return None;
    }

    /** The last loop of `Call`: keep the text items of a reply. */
    static method CollectText(content: seq<Content>) returns (text: string)
      ensures text == ReplyText(content)
    {
      text := "";
      for i := 0 to |content|
        invariant text == ReplyText(content[..i])
      {
        assert content[..i + 1][..i] == content[..i];
        if content[i].TextPart? {
          text := text + content[i].text;
        }
      }
      assert content[..|content|] == content;
    }

    method Invoke(name: string, args: Json, env: CallEnv) returns (r: Returned)
      modifies this`session, this`dials, this`calls, this`trace
      ensures (Now(), r) == Call(old(Now()), name, args, env)
    {
      hide SessionFailure, RetrySafeTool, Reconnect, CallTool, ReplyText;
      ghost var tag := calls;
      calls := calls + 1;
      if name !in tools {
        return Returned("", Some(NotInCatalog(name)));
      }
      var result := CallToolOnce(tag, name, args, env.first);
      if result.SendFailed? && SessionFailure(result.message) {
        var failed := Reopen(env.dial);
        if failed.Some? {
          return Returned("", Some(ReconnectFailed(result.message, failed.value)));
        }
        if RetrySafeTool(name) {
          result := CallToolOnce(tag, name, args, env.second);
        }
      }
      if result.SendFailed? {
        return Returned("", Some(result.message));
      }
      var text := CollectText(result.content);
      if result.isError {
        return Returned(text, Some(TrimSpace(text)));
      }
      return Returned(text, None);
    }

    /** Closing reports the transport's own error but forgets the session either way. */
    method Close(fault: Option<string>) returns (error: Option<string>)
      modifies this`session, this`trace
      ensures Now() == Drop(old(Now()))
      ensures error == if old(session).None? then None else fault
    {
      if session == None {
        return None;
      }
      trace := trace + [Closed(session.value)];
      session := None;
      return fault;
    }
  }
}
