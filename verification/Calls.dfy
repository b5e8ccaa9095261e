/** One `Call` from the outside: what it sends, when it sends again, and what it tells its caller. */
module Calls {
  import opened Text
  import opened Catalog
  import opened Session
  import opened SessionRuns

  // ----- What is reported -----

  /** The text items of a reply, in order. */
  function TextItems(content: seq<Content>): seq<string> {
    if content == [] then []
    else (if content[0].TextPart? then [content[0].text] else []) + TextItems(content[1..])
  }

  lemma {:induction false} ConcatAppend(parts: seq<string>, more: seq<string>)
    ensures Concat(parts + more) == Concat(parts) + Concat(more)
    decreases |more|
  {
    if more == [] {
      assert parts + more == parts;
    } else {
      assert (parts + more)[..|parts + more| - 1] == parts + more[..|more| - 1];
      ConcatAppend(parts, more[..|more| - 1]);
    }
  }

  lemma {:induction false} ItemsAppend(content: seq<Content>, more: seq<Content>)
    ensures TextItems(content + more) == TextItems(content) + TextItems(more)
  {
    if content == [] {
      assert content + more == more;
    } else {
      assert (content + more)[1..] == content[1..] + more;
      ItemsAppend(content[1..], more);
    }
  }

  lemma {:induction false} ReplyIsItems(content: seq<Content>)
    ensures ReplyText(content) == Concat(TextItems(content))
  {
    if content != [] {
      var front, last := content[..|content| - 1], content[|content| - 1];
      ReplyIsItems(front);
      assert content == front + [last];
      ItemsAppend(front, [last]);
      assert [last][1..] == [];
      ConcatAppend(TextItems(front), TextItems([last]));
      assert TextItems([last]) == if last.TextPart? then [last.text] else [];
      if last.TextPart? {
        assert [last.text][..0] == [];
      }
    }
  }

  /**
   * The outcome of a send as the caller learns it: the text items of the answer one after the other, with an error
   * exactly when the send failed or the tool reported one, which is then the failure or the trimmed text.
   */
  predicate Tells(outcome: SendOutcome, r: Returned) {
    match outcome
    case SendFailed(m) => r == Returned("", Some(m))
    case Answered(content, isError) =>
      && r.text == Concat(TextItems(content))
      && r.error == if isError then Some(TrimSpace(r.text)) else None
  }

  lemma {:induction false} ConcludeTells(outcome: SendOutcome)
    ensures Tells(outcome, Conclude(outcome))
  {
    if outcome.Answered? {
      ReplyIsItems(outcome.content);
    }
  }

  // ----- One call, exactly -----

  /** The send failed in a way that means the session is gone. */
  predicate BreaksSession(outcome: SendOutcome) {
    outcome.SendFailed? && SessionFailure(outcome.message)
  }

  /** Why a dial does not bring the session back. */
  function Obstacle(dial: Dial): string {
    match dial
    case DialFailed(m) => "connect private defi mcp: " + m
    case ListFailed(m) => "list private defi mcp tools: " + m
    case ToolsListed(listed) =>
      if Acceptable(listed) then
        "private defi mcp catalog changed; restart the Lending Agent to synchronize it"
      else Refusal(listed)
  }

  /** What a dial that does not bring the session back leaves in the trace. */
  function Attempted(d: nat, dial: Dial): seq<Event> {
    match dial
    case DialFailed(_) => []
    case ListFailed(_) => [Opened(d), Closed(d)]
    case ToolsListed(listed) =>
      if Acceptable(listed) then [Opened(d), Listed(d, CatalogOf(listed)), Closed(d)] else [Opened(d), Closed(d)]
  }

  /** What one call of a catalog tool on session `k` adds to the trace. */
  function Added(s: State, k: nat, name: string, args: Json, env: CallEnv): seq<Event> {
    var d, sent := s.dials, Sent(s.calls, k, name, args, env.first);
    if !BreaksSession(env.first) then [sent]
    else if !Restores(s.tools, env.dial) then [sent, Closed(k)] + Attempted(d, env.dial)
    else if !RetrySafeTool(name) then [sent, Closed(k), Opened(d), Listed(d, CatalogOf(env.dial.listed))]
    else
      [sent, Closed(k), Opened(d), Listed(d, CatalogOf(env.dial.listed)), Sent(s.calls, d, name, args, env.second)]
  }

  /** What it tells its caller. */
  predicate Reports(s: State, name: string, env: CallEnv, r: Returned) {
    if !BreaksSession(env.first) then Tells(env.first, r)
    else if !Restores(s.tools, env.dial) then
      r == Returned("", Some("private defi mcp session failed: " + env.first.message +
                             " (reconnect failed: " + Obstacle(env.dial) + ")"))
    else Tells(if RetrySafeTool(name) then env.second else env.first, r)
  }

  lemma {:induction false} RedialExactly(s: State, dial: Dial)
    requires s.session.Some?
    ensures var (u, failed) := Reconnect(s, dial); var k, d := s.session.value, s.dials;
      && failed == (if Restores(s.tools, dial) then None else Some(Obstacle(dial)))
      && u == s.(session := u.session, dials := u.dials, trace := u.trace)
      && u.session == (if Restores(s.tools, dial) then Some(d) else None)
      && u.dials == d + (if dial.DialFailed? then 0 else 1)
      && u.trace == s.trace + [Closed(k)] +
                    if Restores(s.tools, dial) then [Opened(d), Listed(d, CatalogOf(dial.listed))]
                    else Attempted(d, dial)
  {
    hide CatalogOf, Acceptable, SameCatalog, Refusal;
    var k, d := s.session.value, s.dials;
    if dial.ToolsListed? && Acceptable(dial.listed) && !Restores(s.tools, dial) {
      assert [Opened(d), Listed(d, CatalogOf(dial.listed))] + [Closed(d)] == Attempted(d, dial);
    }
  }

  /**
   * One `Call` of a catalog tool on a live session, in full: the events it adds, the session it leaves, and its
   * answer. It sends a second time exactly when the first send broke the session, the redial listed the same catalog
   * and the tool is retry-safe; then on the new session, with the same arguments.
   */
  lemma {:induction false} CallExactly(s: State, name: string, args: Json, env: CallEnv)
    requires name in s.tools && s.session.Some?
    ensures var (u, r) := Call(s, name, args, env); var k := s.session.value;
      && u.trace == s.trace + Added(s, k, name, args, env) && Reports(s, name, env, r)
      && u.tools == s.tools && u.calls == s.calls + 1
      && u.session == (if !BreaksSession(env.first) then Some(k)
                       else if Restores(s.tools, env.dial) then Some(s.dials) else None)
      && u.dials == s.dials + (if BreaksSession(env.first) && !env.dial.DialFailed? then 1 else 0)
  {
    hide SessionFailure, RetrySafeTool, Restores, Reconnect, Conclude, CatalogOf, Acceptable, Tells, Obstacle;
    hide Attempted;
    var k, d, sent := s.session.value, s.dials, Sent(s.calls, s.session.value, name, args, env.first);
    ConcludeTells(env.first);
    ConcludeTells(env.second);
    if BreaksSession(env.first) {
      var lost := s.(calls := s.calls + 1, trace := s.trace + [sent]);
      RedialExactly(lost, env.dial);
      var restored := [Opened(d), Listed(d, if env.dial.ToolsListed? then CatalogOf(env.dial.listed) else map[])];
      assert s.trace + [sent] + [Closed(k)] + restored == s.trace + ([sent, Closed(k)] + restored);
      assert s.trace + [sent] + [Closed(k)] + Attempted(d, env.dial) ==
             s.trace + ([sent, Closed(k)] + Attempted(d, env.dial));
      var again := Sent(s.calls, d, name, args, env.second);
      assert s.trace + [sent] + [Closed(k)] + restored + [again] ==
             s.trace + ([sent, Closed(k)] + restored + [again]);
    }
  }

  lemma {:induction false} NotInCatalogSays(name: string)
    ensures NotInCatalog(name) == "tool \"" + name + "\" is not in the startup MCP catalog"
  {
    assert "tool " + "\"" == "tool \"";
    assert "\"" + " is not in the startup MCP catalog" == "\" is not in the startup MCP catalog";
  }

  /** A `Call` of a tool outside the catalog, or without a session, sends nothing and says why. */
  lemma {:induction false} CallWithoutSend(s: State, name: string, args: Json, env: CallEnv)
    requires name !in s.tools || s.session.None?
    ensures Call(s, name, args, env) == (s.(calls := s.calls + 1), Returned("", Some(
              if name !in s.tools then "tool \"" + name + "\" is not in the startup MCP catalog"
              else "private defi mcp session is not connected")))
  {
    hide SessionFailure, RetrySafeTool, NotInCatalog;
    NotConnectedIsNoSessionFailure();
    NotInCatalogSays(name);
  }

  // ----- The sends of one call in a trace -----

  /** The sends on behalf of the call numbered `tag`. */
  function SendsBy(t: seq<Event>, tag: nat): seq<Event> {
    if t == [] then []
    else SendsBy(t[..|t| - 1], tag) + if SentBy(t[|t| - 1], tag) then [t[|t| - 1]] else []
  }

  lemma {:induction false} SendsByAppend(t: seq<Event>, x: seq<Event>, tag: nat)
    ensures SendsBy(t + x, tag) == SendsBy(t, tag) + SendsBy(x, tag)
    decreases |x|
  {
    if x == [] {
      assert t + x == t;
    } else {
      assert (t + x)[..|t + x| - 1] == t + x[..|x| - 1];
      SendsByAppend(t, x[..|x| - 1], tag);
    }
  }

  lemma {:induction false} NoSendsBy(x: seq<Event>, tag: nat)
    requires forall i :: 0 <= i < |x| ==> !SentBy(x[i], tag)
    ensures SendsBy(x, tag) == []
  {
    if x != [] {
      NoSendsBy(x[..|x| - 1], tag);
    }
  }

  lemma {:induction false} SendFirst(sent: Event, x: seq<Event>, tag: nat)
    requires SentBy(sent, tag) && forall i :: 0 <= i < |x| ==> !x[i].Sent?
    ensures SendsBy([sent] + x, tag) == [sent]
  {
    SendsByAppend([sent], x, tag);
    NoSendsBy(x, tag);
    assert [sent][..0] == [];
  }

  /** The sends of one call: one, or two exactly when it sends again. */
  lemma {:induction false} SendsOfCall(s: State, k: nat, name: string, args: Json, env: CallEnv)
    ensures SendsBy(Added(s, k, name, args, env), s.calls) ==
            [Sent(s.calls, k, name, args, env.first)] +
            if BreaksSession(env.first) && Restores(s.tools, env.dial) && RetrySafeTool(name) then
              [Sent(s.calls, s.dials, name, args, env.second)]
            else []
  {
    hide SessionFailure, RetrySafeTool, Restores, CatalogOf, SendsBy;
    var d, tag, sent := s.dials, s.calls, Sent(s.calls, k, name, args, env.first);
    var again := Sent(tag, d, name, args, env.second);
    var x := Added(s, k, name, args, env)[1..];
    assert Added(s, k, name, args, env) == [sent] + x;
    if BreaksSession(env.first) && Restores(s.tools, env.dial) && RetrySafeTool(name) {
      SendFirst(sent, x[..3], tag);
      assert x[3..] == [again] + [];
      SendFirst(again, [], tag);
      SendsByAppend([sent] + x[..3], x[3..], tag);
      assert [sent] + x == [sent] + x[..3] + x[3..];
    } else {
      SendFirst(sent, x, tag);
    }
  }

  lemma {:induction false} NothingSentYet(s: State)
    requires Disciplined(s)
    ensures SendsBy(s.trace, s.calls) == []
  {
    NoSendsBy(s.trace, s.calls);
  }

  /**
   * Sending twice, in every reachable state: a `Call` does it exactly when the client has a session, the tool is in
   * the catalog and retry-safe, the first send broke the session and the redial listed the same catalog.
   */
  lemma {:induction false} ResendsExactlyWhen(token: string, dial: Dial, requests: seq<Request>, name: string,
                                              args: Json, env: CallEnv)
    requires Connect(token, dial).0.Ok?
    ensures var s := Run(Connect(token, dial).0.value, requests);
      var sends := SendsBy(Call(s, name, args, env).0.trace, s.calls);
      && |sends| <= 2 && (|sends| >= 1 <==> name in s.tools && s.session.Some?)
      && (|sends| == 2 <==>
            && name in s.tools && s.session.Some? && RetrySafeTool(name)
            && BreaksSession(env.first) && Restores(s.tools, env.dial))
  {
    hide Connect, Consistent, Call, Added, BreaksSession, Restores, RetrySafeTool, Reports, Disciplined;
    var start := Connect(token, dial).0.value;
    var s := Run(start, requests);
    ConnectDisciplined(token, dial);
    RunDisciplined(start, requests);
    NothingSentYet(s);
    if name in s.tools && s.session.Some? {
      CallExactly(s, name, args, env);
      SendsOfCall(s, s.session.value, name, args, env);
      SendsByAppend(s.trace, Added(s, s.session.value, name, args, env), s.calls);
    } else {
      CallWithoutSend(s, name, args, env);
    }
  }

  // ----- What breaks a session, and what is safe to repeat -----

  const FAILURE_TEXTS: seq<string> := [
    "409 conflict", "stream id conflicts", "connection closed", "broken session", "client is closing",
    "hanging get", "failed to reconnect", "consumer stopped", "session is closed", "session not found"]

  predicate HasFailureText(message: string, k: nat)
    requires k < |FAILURE_TEXTS|
  {
    Contains(message, FAILURE_TEXTS[k])
  }

  lemma {:induction false} TenTexts(message: string)
    ensures (exists k: nat :: k < 10 && HasFailureText(message, k)) <==>
            || HasFailureText(message, 0) || HasFailureText(message, 1) || HasFailureText(message, 2)
            || HasFailureText(message, 3) || HasFailureText(message, 4) || HasFailureText(message, 5)
            || HasFailureText(message, 6) || HasFailureText(message, 7) || HasFailureText(message, 8)
            || HasFailureText(message, 9)
  {
    hide HasFailureText;
  }

  lemma {:induction false} SessionFailureIsATextOf(error: string)
    ensures SessionFailure(error) <==> exists k: nat :: k < 10 && HasFailureText(ToLower(error), k)
  {
    hide Contains, ToLower;
    TenTexts(ToLower(error));
  }

  /** Whatever stands around it and whatever the case of its letters, each of the ten texts is a session failure. */
  lemma {:induction false} SessionFailureExactlyWhen(error: string)
    ensures SessionFailure(error) <==>
            exists k: nat, a, b :: k < 10 && ToLower(error) == a + FAILURE_TEXTS[k] + b
  {
    hide SessionFailure, ToLower, Contains;
    var message := ToLower(error);
    SessionFailureIsATextOf(error);
    forall k: nat | k < 10
      ensures HasFailureText(message, k) <==> exists a, b :: message == a + FAILURE_TEXTS[k] + b
    {
      ContainsExactlyWhen(message, FAILURE_TEXTS[k]);
    }
  }

  const SAFE_PREFIXES: seq<string> := [
    "get_", "list_", "quote_", "build_", "lendora_get_", "lendora_list_", "lendora_quote_"]

  predicate HasSafePrefix(name: string, k: nat)
    requires k < |SAFE_PREFIXES|
  {
    HasPrefix(name, SAFE_PREFIXES[k])
  }

  /** The name of a tool that builds a transaction; the two markers may share an underscore. */
  ghost predicate BuildsTx(name: string) {
    (exists a :: name == a + "_build_tx") || exists a, x :: name == a + "_build_" + x + "_tx"
  }

  lemma {:induction false} MarkersApart(name: string, i: nat)
    requires OccursAt(name, "_build_", i) && HasSuffix(name, "_tx") && i + 10 <= |name|
    ensures BuildsTx(name)
  {
    var a, x := name[..i], name[i + 7..|name| - 3];
    assert name == a + "_build_" + x + "_tx" by {
      assert name[i..i + 7] == "_build_" && name[|name| - 3..] == "_tx";
      assert name == name[..i] + name[i..i + 7] + name[i + 7..|name| - 3] + name[|name| - 3..];
    }
  }

  lemma {:induction false} MarkersShare(name: string, i: nat)
    requires OccursAt(name, "_build_", i) && HasSuffix(name, "_tx") && i + 10 > |name|
    ensures BuildsTx(name)
  {
    var n := |name|;
    assert name[i..i + 7] == "_build_" && name[n - 3..] == "_tx";
    assert name[i + 6] == '_' && name[n - 3] == '_' && name[n - 2] == 't' && name[n - 1] == 'x';
    assert i + 6 == n - 3;
    assert name[i..] == name[i..i + 7] + name[n - 2..];
    assert "_build_tx" == "_build_" + "tx";
    assert name == name[..i] + "_build_tx";
  }

  lemma {:induction false} BuildsTxContains(name: string)
    requires BuildsTx(name)
    ensures Contains(name, "_build_") && HasSuffix(name, "_tx")
  {
    if a :| name == a + "_build_tx" {
      assert "_build_tx" == "_build_" + "tx" == "_build" + "_tx";
      assert name == a + "_build_" + "tx" && name == (a + "_build") + "_tx";
      ContainsExactlyWhen(name, "_build_");
    } else {
      var a, x :| name == a + "_build_" + x + "_tx";
      assert name == a + "_build_" + (x + "_tx");
      ContainsExactlyWhen(name, "_build_");
    }
  }

  lemma {:induction false} BuildsTxExactlyWhen(name: string)
    ensures BuildsTx(name) <==> Contains(name, "_build_") && HasSuffix(name, "_tx")
  {
    hide BuildsTx;
    if Contains(name, "_build_") && HasSuffix(name, "_tx") {
      var i :| 0 <= i <= |name| - 7 && OccursAt(name, "_build_", i);
      if i + 10 <= |name| {
        MarkersApart(name, i);
      } else {
        MarkersShare(name, i);
      }
    }
    if BuildsTx(name) {
      BuildsTxContains(name);
    }
  }

  lemma {:induction false} SevenPrefixes(name: string)
    ensures (exists k: nat :: k < 7 && HasSafePrefix(name, k)) <==>
            || HasSafePrefix(name, 0) || HasSafePrefix(name, 1) || HasSafePrefix(name, 2) || HasSafePrefix(name, 3)
            || HasSafePrefix(name, 4) || HasSafePrefix(name, 5) || HasSafePrefix(name, 6)
  {
    hide HasSafePrefix;
  }

  lemma {:induction false} RetrySafeIsOneOf(tool: string)
    ensures var n := ToLower(TrimSpace(tool));
      RetrySafeTool(tool) <==>
        (exists k: nat :: k < 7 && HasSafePrefix(n, k)) || n == "whoami" ||
        (Contains(n, "_build_") && HasSuffix(n, "_tx"))
  {
    hide Contains, HasSuffix, HasPrefix, ToLower, TrimSpace;
    SevenPrefixes(ToLower(TrimSpace(tool)));
  }

  /** Which tools are safe to repeat, up to case and surrounding white space. */
  lemma {:induction false} RetrySafeExactlyWhen(tool: string)
    ensures var n := ToLower(TrimSpace(tool));
      RetrySafeTool(tool) <==>
        (exists k: nat, rest :: k < 7 && n == SAFE_PREFIXES[k] + rest) || n == "whoami" || BuildsTx(n)
  {
    hide RetrySafeTool, ToLower, TrimSpace, HasPrefix, Contains, HasSuffix, BuildsTx;
    var n := ToLower(TrimSpace(tool));
    RetrySafeIsOneOf(tool);
    BuildsTxExactlyWhen(n);
    forall k: nat | k < 7 ensures HasSafePrefix(n, k) <==> exists rest :: n == SAFE_PREFIXES[k] + rest {
      HasPrefixExactlyWhen(n, SAFE_PREFIXES[k]);
    }
  }

  // ----- Start-up -----

  /** `Connect` in full: what it comes to and what it leaves behind, for every token and every dial. */
  lemma {:induction false} ConnectExactly(token: string, dial: Dial)
    ensures var (r, events) := Connect(token, dial);
      if TrimSpace(token) == "" then r == Err("private defi mcp auth token is required") && events == []
      else if dial.ToolsListed? && Acceptable(dial.listed) then
        && events == [Opened(0), Listed(0, CatalogOf(dial.listed))]
        && r == Ok(State(Some(0), CatalogOf(dial.listed), 1, 0, events))
      else r == Err(Obstacle(dial)) && events == Attempted(0, dial)
  {
    hide TrimSpace, Acceptable, CatalogOf, Refusal;
  }
}
