/** What holds over whole runs of the private MCP client, whatever the transport answers. */
module SessionRuns {
  import opened Text
  import opened Catalog
  import opened Session

  datatype Request = CallRequest(name: string, args: Json, env: CallEnv) | CloseRequest

  function Step(s: State, r: Request): State {
    match r
    case CallRequest(name, args, env) => Call(s, name, args, env).0
    case CloseRequest => Drop(s)
  }

  /** The mutex serializes requests, so a run is a sequence of whole steps. */
  function Run(s: State, requests: seq<Request>): State {
    if requests == [] then s
    else Step(Run(s, requests[..|requests| - 1]), requests[|requests| - 1])
  }

  lemma {:induction false} RunAppend(s: State, a: seq<Request>, b: seq<Request>)
    ensures Run(s, a + b) == Run(Run(s, a), b)
    decreases |b|
  {
    if b == [] {
      assert a + b == a;
    } else {
      assert (a + b)[..|a + b| - 1] == a + b[..|b| - 1];
      RunAppend(s, a, b[..|b| - 1]);
    }
  }

  // ----- The life of sessions -----

  function LiveAfter(live: set<nat>, e: Event): set<nat> {
    if e.Opened? then live + {e.session} else if e.Closed? then live - {e.session} else live
  }

  function LiveSessions(t: seq<Event>): set<nat> {
    if t == [] then {} else LiveAfter(LiveSessions(t[..|t| - 1]), t[|t| - 1])
  }

  function OpenCount(t: seq<Event>): nat {
    if t == [] then 0 else OpenCount(t[..|t| - 1]) + if t[|t| - 1].Opened? then 1 else 0
  }

  function CloseCount(t: seq<Event>): nat {
    if t == [] then 0 else CloseCount(t[..|t| - 1]) + if t[|t| - 1].Closed? then 1 else 0
  }

  /** A session is opened only while none is live, under a new number, and used or closed only while live. */
  predicate Orderly(t: seq<Event>) {
    t != [] ==>
      var before, last := t[..|t| - 1], t[|t| - 1];
      && Orderly(before)
      && (if last.Opened? then LiveSessions(before) == {} && last.session == OpenCount(before)
          else last.session in LiveSessions(before))
  }

  lemma {:induction false} Extend(t: seq<Event>, e: Event)
    ensures LiveSessions(t + [e]) == LiveAfter(LiveSessions(t), e)
    ensures OpenCount(t + [e]) == OpenCount(t) + if e.Opened? then 1 else 0
    ensures Orderly(t + [e]) <==>
            && Orderly(t)
            && if e.Opened? then LiveSessions(t) == {} && e.session == OpenCount(t) else e.session in LiveSessions(t)
  {
    assert (t + [e])[..|t + [e]| - 1] == t;
  }

  lemma {:induction false} ExtendTwice(t: seq<Event>, k: nat, e: Event)
    requires Orderly(t) && LiveSessions(t) == {} && k == OpenCount(t)
    requires e == Closed(k) || (e.Listed? && e.session == k)
    ensures Orderly(t + [Opened(k), e]) && OpenCount(t + [Opened(k), e]) == k + 1
    ensures LiveSessions(t + [Opened(k), e]) == if e.Closed? then {} else {k}
  {
    Extend(t, Opened(k));
    Extend(t + [Opened(k)], e);
    assert t + [Opened(k), e] == t + [Opened(k)] + [e];
  }

  predicate Consistent(s: State) {
    && Orderly(s.trace)
    && LiveSessions(s.trace) == (if s.session.None? then {} else {s.session.value})
    && OpenCount(s.trace) == s.dials
    && (s.session.Some? ==> s.session.value < s.dials)
  }

  lemma {:induction false} EstablishKeeps(t: seq<Event>, k: nat, dial: Dial)
    requires Orderly(t) && LiveSessions(t) == {} && k == OpenCount(t)
    ensures var e := Establish(k, dial); var u := t + e.events;
      && Orderly(u) && OpenCount(u) == k + OpenedBy(e)
      && LiveSessions(u) == if e.result.Ok? then {k} else {}
  {
    var e := Establish(k, dial);
    if dial.DialFailed? {
      assert t + e.events == t;
    } else {
      ExtendTwice(t, k, e.events[1]);
    }
  }

  lemma {:induction false} DropKeeps(s: State)
    requires Consistent(s)
    ensures Consistent(Drop(s))
  {
    if s.session.Some? {
      Extend(s.trace, Closed(s.session.value));
    }
  }

  lemma {:induction false} ReconnectKeeps(s: State, dial: Dial)
    requires Consistent(s)
    ensures Consistent(Reconnect(s, dial).0)
  {
    hide Acceptable, CatalogOf, Refusal, SameCatalog;
    DropKeeps(s);
    EstablishKeeps(Drop(s).trace, s.dials, dial);
    Extend(Drop(s).trace + Establish(s.dials, dial).events, Closed(s.dials));
  }

  lemma {:induction false} CallToolKeeps(s: State, tag: nat, name: string, args: Json, outcome: SendOutcome)
    requires Consistent(s)
    ensures Consistent(CallTool(s, tag, name, args, outcome).0)
  {
    if s.session.Some? {
      Extend(s.trace, Sent(tag, s.session.value, name, args, outcome));
    }
  }

  lemma {:induction false} Renumbered(s: State)
    requires Consistent(s)
    ensures Consistent(s.(calls := s.calls + 1))
  {
  }

  lemma {:induction false} StepKeeps(s: State, r: Request)
    requires Consistent(s)
    ensures Consistent(Step(s, r))
  {
    hide SessionFailure, RetrySafeTool, Reconnect, Drop, CallTool, Conclude, Consistent;
    assert r.CallRequest? ==> Consistent(s.(calls := s.calls + 1)) by { Renumbered(s); }
    match r
    case CloseRequest => DropKeeps(s);
    case CallRequest(name, args, env) =>
      var s0 := s.(calls := s.calls + 1);
      CallToolKeeps(s0, s.calls, name, args, env.first);
      var s1 := CallTool(s0, s.calls, name, args, env.first).0;
      ReconnectKeeps(s1, env.dial);
      CallToolKeeps(Reconnect(s1, env.dial).0, s.calls, name, args, env.second);
  }

  lemma {:induction false} ConnectKeeps(token: string, dial: Dial)
    ensures var (r, events) := Connect(token, dial);
      && Orderly(events)
      && (r.Ok? ==> Consistent(r.value))
      && (r.Err? ==> LiveSessions(events) == {})
      && OpenCount(events) <= 1
  {
    hide Acceptable, CatalogOf, Refusal, TrimSpace;
    EstablishKeeps([], 0, dial);
    assert [] + Establish(0, dial).events == Establish(0, dial).events;
  }

  lemma {:induction false} RunKeeps(s: State, requests: seq<Request>)
    requires Consistent(s)
    ensures Consistent(Run(s, requests))
  {
    if requests != [] {
      RunKeeps(s, requests[..|requests| - 1]);
      StepKeeps(Run(s, requests[..|requests| - 1]), requests[|requests| - 1]);
    }
  }

  lemma {:induction false} OrderlyPrefix(t: seq<Event>, i: nat)
    requires Orderly(t) && i <= |t|
    ensures Orderly(t[..i])
    decreases |t|
  {
    if i < |t| {
      OrderlyPrefix(t[..|t| - 1], i);
      assert t[..|t| - 1][..i] == t[..i];
    } else {
      assert t[..i] == t;
    }
  }

  /** Opened is closed plus live, for each session by itself and for all sessions together. */
  lemma {:induction false} Balance(t: seq<Event>, k: nat)
    requires Orderly(t)
    ensures multiset(t)[Opened(k)] == multiset(t)[Closed(k)] + if k in LiveSessions(t) then 1 else 0
    ensures multiset(t)[Opened(k)] == if k < OpenCount(t) then 1 else 0
    ensures OpenCount(t) == CloseCount(t) + |LiveSessions(t)|
    ensures |LiveSessions(t)| <= 1
  {
    if t != [] {
      var before, last := t[..|t| - 1], t[|t| - 1];
      Balance(before, k);
      assert t == before + [last];
      if last.Closed? {
        assert |LiveSessions(before)| == |LiveSessions(before) - {last.session}| + 1;
      }
    }
  }

  /**
   * Session conservation. Over any run, at every moment: each session was opened at most once and closed at
   * most once, never closed before it was opened, at most one is live, and what was opened and not closed is
   * exactly the session the client holds.
   */
  lemma {:induction false} SessionConservation(token: string, dial: Dial, requests: seq<Request>, k: nat, i: nat)
    requires Connect(token, dial).0.Ok?
    requires i <= |Run(Connect(token, dial).0.value, requests).trace|
    ensures var s := Run(Connect(token, dial).0.value, requests); var t := s.trace;
      && multiset(t[..i])[Closed(k)] <= multiset(t[..i])[Opened(k)] <= 1
      && |LiveSessions(t[..i])| <= 1
      && OpenCount(t) - CloseCount(t) == (if s.session.Some? then 1 else 0)
      && (s.session == Some(k) <==> multiset(t)[Opened(k)] == 1 && multiset(t)[Closed(k)] == 0)
  {
    var s := Run(Connect(token, dial).0.value, requests);
    ConnectKeeps(token, dial);
    RunKeeps(Connect(token, dial).0.value, requests);
    OrderlyPrefix(s.trace, i);
    Balance(s.trace[..i], k);
    Balance(s.trace, k);
  }

  /** A start-up that fails leaves nothing open. */
  lemma {:induction false} FailedConnectLeavesNothingOpen(token: string, dial: Dial, k: nat)
    requires Connect(token, dial).0.Err?
    ensures var t := Connect(token, dial).1;
      && multiset(t)[Opened(k)] == multiset(t)[Closed(k)] <= 1
      && OpenCount(t) == CloseCount(t) <= 1
  {
    hide Connect, LiveSessions, OpenCount, CloseCount, Orderly;
    ConnectKeeps(token, dial);
    Balance(Connect(token, dial).1, k);
  }

  // ----- A nil session stays nil -----

  /** Each of the ten patterns of `SessionFailure` has a letter the message lacks. */
  lemma {:induction false} NoPatternOccurs(m: string)
    requires ToLower(m) == m
    requires '4' !in m && 'l' !in m && 'b' !in m && 'h' !in m && 'u' !in m
    ensures !SessionFailure(m)
  {
    hide OccursAt, Contains, ToLower;
    LacksCharacter(m, "409 conflict", 0);
    LacksCharacter(m, "stream id conflicts", 14);
    LacksCharacter(m, "connection closed", 12);
    LacksCharacter(m, "broken session", 0);
    LacksCharacter(m, "client is closing", 1);
    LacksCharacter(m, "hanging get", 0);
    LacksCharacter(m, "failed to reconnect", 3);
    LacksCharacter(m, "consumer stopped", 4);
    LacksCharacter(m, "session is closed", 12);
    LacksCharacter(m, "session not found", 14);
  }

  lemma NotConnectedIsLowerCase()
    ensures ToLower(NOT_CONNECTED) == NOT_CONNECTED
  {
  }

  lemma {:induction false} NotConnectedLacks(c: char)
    requires c in "4lbhu"
    ensures c !in NOT_CONNECTED
  {
  }

  lemma NotConnectedIsNoSessionFailure()
    ensures !SessionFailure(NOT_CONNECTED)
  {
    hide SessionFailure;
    NotConnectedIsLowerCase();
    NotConnectedLacks('4');
    NotConnectedLacks('l');
    NotConnectedLacks('b');
    NotConnectedLacks('h');
    NotConnectedLacks('u');
    NoPatternOccurs(NOT_CONNECTED);
  }

  /** Without a session no sequence of requests opens one, sends anything or closes anything. */
  lemma {:induction false} NilSessionIsAbsorbing(s: State, requests: seq<Request>)
    requires s.session.None?
    ensures var u := Run(s, requests);
      && u.session.None? && u.trace == s.trace && u.dials == s.dials && u.tools == s.tools
      && forall name, args, env :: Call(u, name, args, env).1 ==
           Returned("", Some(if name in s.tools then NOT_CONNECTED else NotInCatalog(name)))
  {
    NotConnectedIsNoSessionFailure();
    if requests != [] {
      NilSessionIsAbsorbing(s, requests[..|requests| - 1]);
    }
  }

  lemma {:induction false} CloseIsFinal(s: State, before: seq<Request>, after: seq<Request>)
    ensures var closed := Run(s, before + [CloseRequest]);
      Run(s, before + [CloseRequest] + after).trace == closed.trace
      && Run(s, before + [CloseRequest] + after).session.None?
  {
    RunAppend(s, before, [CloseRequest]);
    RunAppend(s, before + [CloseRequest], after);
    assert (before + [CloseRequest])[..|before|] == before;
    NilSessionIsAbsorbing(Run(s, before + [CloseRequest]), after);
  }

  /** A dial that brings the session back: it succeeds and lists the very catalog frozen at start-up. */
  predicate Restores(tools: Catalog, dial: Dial) {
    dial.ToolsListed? && Acceptable(dial.listed) && SameCatalog(tools, CatalogOf(dial.listed))
  }

  predicate CostsTheSession(tools: Catalog, r: Request) {
    match r
    case CloseRequest => true
    case CallRequest(name, args, env) =>
      && name in tools
      && env.first.SendFailed? && SessionFailure(env.first.message)
      && !Restores(tools, env.dial)
  }

  /** Exactly when a request costs the client its session, for good by the lemma above. */
  lemma {:induction false} SessionLostExactlyWhen(s: State, r: Request)
    requires s.session.Some?
    ensures Step(s, r).session.None? <==> CostsTheSession(s.tools, r)
  {
    hide SessionFailure, RetrySafeTool, SameCatalog, Acceptable, CatalogOf, Conclude, Refusal;
  }

  // ----- Sending -----

  predicate SentBy(e: Event, tag: nat) {
    e.Sent? && e.call == tag
  }

  /** The only way one `Call` sends twice. */
  predicate RetryPair(t: seq<Event>, i: int, j: int, tools: Catalog)
    requires 0 <= i < j < |t| && t[i].Sent? && t[j].Sent?
  {
    && j == i + 4
    && RetrySafeTool(t[i].tool) && t[j].tool == t[i].tool && t[j].args == t[i].args
    && t[i].outcome.SendFailed? && SessionFailure(t[i].outcome.message)
    && t[j].session != t[i].session
    && t[i + 1] == Closed(t[i].session)
    && t[i + 2] == Opened(t[j].session)
    && t[i + 3].Listed? && t[i + 3].session == t[j].session && SameCatalog(tools, t[i + 3].catalog)
  }

  predicate Vetted(t: seq<Event>, n: int, k: nat, tools: Catalog)
    requires n <= |t|
  {
    exists j :: 0 <= j < n && t[j].Listed? && t[j].session == k && SameCatalog(tools, t[j].catalog)
  }

  /** Sends only name catalog tools, on sessions that listed the frozen catalog; repeats are retry pairs. */
  predicate Disciplined(s: State) {
    var t := s.trace;
    && (s.session.Some? ==> Vetted(t, |t|, s.session.value, s.tools))
    && (forall i :: 0 <= i < |t| && t[i].Sent? ==>
          t[i].call < s.calls && t[i].tool in s.tools && Vetted(t, i, t[i].session, s.tools))
    && (forall i, j :: 0 <= i < j < |t| && t[i].Sent? && SentBy(t[j], t[i].call) ==> RetryPair(t, i, j, s.tools))
  }

  /** What one `Call` adds to the trace: at most one send, or a retry pair and nothing else. */
  predicate CallShape(s: State, name: string, args: Json, x: seq<Event>) {
    && (forall i :: 0 <= i < |x| && x[i].Sent? ==>
          x[i].call == s.calls && x[i].tool == name && name in s.tools)
    && (x != [] ==> x[0].Sent? && s.session == Some(x[0].session))
    && (forall i :: 1 <= i < |x| && x[i].Sent? ==> i == 4 && |x| == 5)
    && (|x| == 5 && x[4].Sent? ==> RetryPair(x, 0, 4, s.tools))
  }

  /** The new session, when the session changed, has just listed the frozen catalog. */
  predicate SessionShape(s: State, u: State, x: seq<Event>) {
    u.session.None? || u.session == s.session || Vetted(x, |x|, u.session.value, s.tools)
  }

  lemma {:induction false} ReconnectAdds(s: State, dial: Dial) returns (y: seq<Event>)
    requires s.session.Some?
    ensures var (u, failed) := Reconnect(s, dial);
      && u == s.(session := u.session, dials := u.dials, trace := s.trace + y)
      && u.session == (if Restores(s.tools, dial) then Some(s.dials) else None)
      && (failed.None? <==> Restores(s.tools, dial))
    ensures |y| <= 4 && forall i :: 0 <= i < |y| ==> !y[i].Sent?
    ensures Restores(s.tools, dial) ==>
      y == [Closed(s.session.value), Opened(s.dials), Listed(s.dials, CatalogOf(dial.listed))]
  {
    hide CatalogOf, Acceptable, SameCatalog, Refusal;
    var e := Establish(s.dials, dial).events;
    y := [Closed(s.session.value)] + e;
    assert s.trace + [Closed(s.session.value)] + e == s.trace + y;
    if e != [] && e[1].Listed? && !Restores(s.tools, dial) {
      assert s.trace + y + [Closed(s.dials)] == s.trace + (y + [Closed(s.dials)]);
      y := y + [Closed(s.dials)];
    }
  }

  lemma {:induction false} CallAdds(s: State, name: string, args: Json, env: CallEnv) returns (x: seq<Event>)
    requires Consistent(s)
    ensures var u := Call(s, name, args, env).0;
      u.trace == s.trace + x && u.tools == s.tools && u.calls == s.calls + 1 && SessionShape(s, u, x)
    ensures CallShape(s, name, args, x)
  {
    hide SessionFailure, RetrySafeTool, Orderly, OpenCount, LiveSessions, CatalogOf, Acceptable, SameCatalog;
    hide Refusal, Reconnect, Conclude;
    NotConnectedIsNoSessionFailure();
    if name !in s.tools || s.session.None? {
      x := [];
    } else {
      var k, n := s.session.value, s.dials;
      var sent := Sent(s.calls, k, name, args, env.first);
      if !(env.first.SendFailed? && SessionFailure(env.first.message)) {
        x := [sent];
      } else {
        var lost := State(Some(k), s.tools, n, s.calls + 1, s.trace + [sent]);
        var y := ReconnectAdds(lost, env.dial);
        x := [sent] + y;
        assert s.trace + [sent] + y == s.trace + x;
        if Restores(s.tools, env.dial) {
          var listed := Listed(n, CatalogOf(env.dial.listed));
          assert x == [sent, Closed(k), Opened(n), listed];
          assert x[3] == listed;
          if RetrySafeTool(name) {
            var again := Sent(s.calls, n, name, args, env.second);
            assert s.trace + x + [again] == s.trace + (x + [again]);
            x := x + [again];
            assert x[3] == listed;
          }
        }
      }
    }
  }

  lemma {:induction false} VettedExtends(t: seq<Event>, x: seq<Event>, n: int, m: int, k: nat, tools: Catalog)
    requires 0 <= n <= |t| && n <= m <= |t + x| && Vetted(t, n, k, tools)
    ensures Vetted(t + x, m, k, tools)
  {
    var j :| 0 <= j < n && t[j].Listed? && t[j].session == k && SameCatalog(tools, t[j].catalog);
    assert (t + x)[j] == t[j];
  }

  lemma {:induction false} VettedSuffix(t: seq<Event>, x: seq<Event>, n: int, k: nat, tools: Catalog)
    requires 0 <= n <= |x| && Vetted(x, n, k, tools)
    ensures Vetted(t + x, |t| + n, k, tools)
  {
    var j :| 0 <= j < n && x[j].Listed? && x[j].session == k && SameCatalog(tools, x[j].catalog);
    assert (t + x)[|t| + j] == x[j];
  }

  lemma {:induction false} RetryPairExtends(t: seq<Event>, x: seq<Event>, i: int, j: int, tools: Catalog)
    requires 0 <= i < j < |t| && t[i].Sent? && t[j].Sent? && RetryPair(t, i, j, tools)
    ensures RetryPair(t + x, i, j, tools)
  {
    hide SessionFailure, RetrySafeTool, SameCatalog;
    assert forall m :: 0 <= m < |t| ==> (t + x)[m] == t[m];
  }

  lemma {:induction false} RetryPairSuffix(t: seq<Event>, x: seq<Event>, tools: Catalog)
    requires |x| == 5 && x[0].Sent? && x[4].Sent? && RetryPair(x, 0, 4, tools)
    ensures RetryPair(t + x, |t|, |t| + 4, tools)
  {
    hide SessionFailure, RetrySafeTool, SameCatalog;
    assert forall m :: 0 <= m < 5 ==> (t + x)[|t| + m] == x[m];
  }

  lemma {:induction false} SendStaysVetted(s: State, x: seq<Event>, name: string, args: Json, i: nat)
    requires Disciplined(s) && CallShape(s, name, args, x)
    requires i < |s.trace + x| && (s.trace + x)[i].Sent?
    ensures var e := (s.trace + x)[i];
      e.call < s.calls + 1 && e.tool in s.tools && Vetted(s.trace + x, i, e.session, s.tools)
  {
    hide SessionFailure, RetrySafeTool, SameCatalog;
    var t := s.trace;
    if i < |t| {
      VettedExtends(t, x, i, i, t[i].session, s.tools);
    } else if i == |t| {
      VettedExtends(t, x, |t|, i, s.session.value, s.tools);
    } else {
      assert (t + x)[i] == x[i - |t|];
      RetryPairSuffix(t, x, s.tools);
      assert (t + x)[|t| + 3].Listed?;
    }
  }

  lemma {:induction false} RepeatStaysPaired(s: State, x: seq<Event>, name: string, args: Json, i: nat, j: nat)
    requires Disciplined(s) && CallShape(s, name, args, x)
    requires i < j < |s.trace + x| && (s.trace + x)[i].Sent? && SentBy((s.trace + x)[j], (s.trace + x)[i].call)
    ensures RetryPair(s.trace + x, i, j, s.tools)
  {
    hide SessionFailure, RetrySafeTool, SameCatalog;
    var t := s.trace;
    if j < |t| {
      assert (t + x)[i] == t[i] && (t + x)[j] == t[j];
      RetryPairExtends(t, x, i, j, s.tools);
    } else {
      assert (t + x)[j] == x[j - |t|];
      if i >= |t| {
        assert (t + x)[i] == x[i - |t|];
        RetryPairSuffix(t, x, s.tools);
      }
    }
  }

  lemma {:induction false} CallDisciplined(s: State, name: string, args: Json, env: CallEnv)
    requires Consistent(s) && Disciplined(s)
    ensures Disciplined(Call(s, name, args, env).0)
  {
    hide SessionFailure, RetrySafeTool, SameCatalog, Call, RetryPair;
    var u := Call(s, name, args, env).0;
    var x := CallAdds(s, name, args, env);
    forall i | 0 <= i < |u.trace| && u.trace[i].Sent?
      ensures u.trace[i].call < u.calls && u.trace[i].tool in u.tools && Vetted(u.trace, i, u.trace[i].session, u.tools)
    {
      SendStaysVetted(s, x, name, args, i);
    }
    forall i, j | 0 <= i < j < |u.trace| && u.trace[i].Sent? && SentBy(u.trace[j], u.trace[i].call)
      ensures RetryPair(u.trace, i, j, u.tools)
    {
      RepeatStaysPaired(s, x, name, args, i, j);
    }
    if u.session.Some? {
      if u.session == s.session {
        VettedExtends(s.trace, x, |s.trace|, |u.trace|, u.session.value, s.tools);
      } else {
        VettedSuffix(s.trace, x, |x|, u.session.value, s.tools);
      }
    }
  }

  lemma {:induction false} DropDisciplined(s: State)
    requires Disciplined(s)
    ensures Disciplined(Drop(s))
  {
    hide SessionFailure, RetrySafeTool, SameCatalog;
    if s.session.Some? {
      var t: seq<Event>, x: seq<Event> := s.trace, [Closed(s.session.value)];
      forall i | 0 <= i < |t + x| && (t + x)[i].Sent? ensures Vetted(t + x, i, t[i].session, s.tools) {
        VettedExtends(t, x, i, i, t[i].session, s.tools);
      }
      forall i, j | 0 <= i < j < |t + x| && (t + x)[i].Sent? && SentBy((t + x)[j], (t + x)[i].call)
        ensures RetryPair(t + x, i, j, s.tools)
      {
        RetryPairExtends(t, x, i, j, s.tools);
      }
    }
  }

  lemma {:induction false} ConnectDisciplined(token: string, dial: Dial)
    requires Connect(token, dial).0.Ok?
    ensures Consistent(Connect(token, dial).0.value) && Disciplined(Connect(token, dial).0.value)
    ensures WellKeyed(Connect(token, dial).0.value.tools)
    ensures dial.ToolsListed? && Acceptable(dial.listed) && Connect(token, dial).0.value.tools == CatalogOf(dial.listed)
  {
    hide SessionFailure, RetrySafeTool, CatalogOf, Acceptable;
    ConnectKeeps(token, dial);
    var s := Connect(token, dial).0.value;
    AcceptedIsWellKeyed(dial.listed);
    SameCatalogIsEquivalence(s.tools, s.tools, s.tools);
    assert s.trace[1] == Listed(0, s.tools);
  }

  /** Everything proved of a reachable state at once. */
  lemma {:induction false} RunDisciplined(s: State, requests: seq<Request>)
    requires Consistent(s) && Disciplined(s)
    ensures Consistent(Run(s, requests)) && Disciplined(Run(s, requests))
    ensures Run(s, requests).tools == s.tools
    ensures s.calls <= Run(s, requests).calls && s.trace <= Run(s, requests).trace
  {
    hide Consistent, Disciplined, Call;
    if requests != [] {
      var front, last := requests[..|requests| - 1], requests[|requests| - 1];
      var u := Run(s, front);
      RunDisciplined(s, front);
      StepKeeps(u, last);
      match last
      case CloseRequest => DropDisciplined(u);
      case CallRequest(name, args, env) =>
        CallDisciplined(u, name, args, env);
        var x := CallAdds(u, name, args, env);
    }
  }

  /**
   * Catalog freeze. In every reachable state the catalog is the one listed at start-up, its names are non-empty
   * and trimmed and name their own tools, the live session listed the same catalog, and so did the session of
   * every tool ever sent.
   */
  lemma {:induction false} CatalogFreeze(token: string, dial: Dial, requests: seq<Request>)
    requires Connect(token, dial).0.Ok?
    ensures var s := Run(Connect(token, dial).0.value, requests);
      && dial.ToolsListed? && s.tools == CatalogOf(dial.listed) && WellKeyed(s.tools)
      && (s.session.Some? ==> Vetted(s.trace, |s.trace|, s.session.value, s.tools))
      && forall i :: 0 <= i < |s.trace| && s.trace[i].Sent? ==>
           s.trace[i].tool in s.tools && Vetted(s.trace, i, s.trace[i].session, s.tools)
  {
    hide Connect, CatalogOf, WellKeyed, Acceptable;
    ConnectDisciplined(token, dial);
    RunDisciplined(Connect(token, dial).0.value, requests);
  }

  lemma {:induction false} NeverThrice(s: State, i: nat, j: nat)
    requires Disciplined(s) && i < j < |s.trace| && s.trace[i].Sent? && SentBy(s.trace[j], s.trace[i].call)
    ensures RetryPair(s.trace, i, j, s.tools)
    ensures forall k :: 0 <= k < |s.trace| && SentBy(s.trace[k], s.trace[i].call) ==> k == i || k == j
  {
    hide SessionFailure, RetrySafeTool, SameCatalog, Vetted;
    forall k | 0 <= k < |s.trace| && SentBy(s.trace[k], s.trace[i].call) ensures k == i || k == j {
      if k > i {
        assert RetryPair(s.trace, i, k, s.tools);
      }
    }
  }

  /**
   * At most once. In every reachable trace two sends on behalf of the same `Call` are a retry pair: the tool
   * is retry-safe, the first send failed with a session failure, and between the two the old session was closed
   * and a new one opened that listed the frozen catalog. A third send is impossible.
   */
  lemma {:induction false} AtMostOnceSending(token: string, dial: Dial, requests: seq<Request>, i: nat, j: nat)
    requires Connect(token, dial).0.Ok?
    ensures var s := Run(Connect(token, dial).0.value, requests);
      i < j < |s.trace| && s.trace[i].Sent? && SentBy(s.trace[j], s.trace[i].call) ==>
        RetryPair(s.trace, i, j, s.tools)
        && forall k :: 0 <= k < |s.trace| && SentBy(s.trace[k], s.trace[i].call) ==> k == i || k == j
  {
    hide Connect, RetryPair, Disciplined, Consistent;
    var s := Run(Connect(token, dial).0.value, requests);
    ConnectDisciplined(token, dial);
    RunDisciplined(Connect(token, dial).0.value, requests);
    if i < j < |s.trace| && s.trace[i].Sent? && SentBy(s.trace[j], s.trace[i].call) {
      NeverThrice(s, i, j);
    }
  }

  function SendsOf(t: seq<Event>, tool: string): nat {
    if t == [] then 0
    else SendsOf(t[..|t| - 1], tool) + if t[|t| - 1].Sent? && t[|t| - 1].tool == tool then 1 else 0
  }

  function CallsOf(requests: seq<Request>, tool: string): nat {
    if requests == [] then 0
    else
      var last := requests[|requests| - 1];
      CallsOf(requests[..|requests| - 1], tool) + if last.CallRequest? && last.name == tool then 1 else 0
  }

  lemma {:induction false} SendsAdd(t: seq<Event>, x: seq<Event>, tool: string)
    ensures SendsOf(t + x, tool) == SendsOf(t, tool) + SendsOf(x, tool)
    decreases |x|
  {
    if x == [] {
      assert t + x == t;
    } else {
      assert (t + x)[..|t + x| - 1] == t + x[..|x| - 1];
      SendsAdd(t, x[..|x| - 1], tool);
    }
  }

  lemma {:induction false} NoSends(x: seq<Event>, tool: string)
    requires forall i :: 0 <= i < |x| ==> !x[i].Sent? || x[i].tool != tool
    ensures SendsOf(x, tool) == 0
  {
    if x != [] {
      NoSends(x[..|x| - 1], tool);
    }
  }

  lemma {:induction false} CallSendsAtMostOnce(s: State, name: string, args: Json, x: seq<Event>, tool: string)
    requires CallShape(s, name, args, x) && !RetrySafeTool(tool)
    ensures SendsOf(x, tool) <= if name == tool then 1 else 0
  {
    hide SessionFailure, RetrySafeTool, SameCatalog;
    if name != tool {
      NoSends(x, tool);
    } else if x != [] {
      assert x == x[..1] + x[1..];
      SendsAdd(x[..1], x[1..], tool);
      assert x[..1][..0] == [];
      NoSends(x[1..], tool);
    }
  }

  /** A tool that is not retry-safe is never sent more often than it was asked for. */
  lemma {:induction false} NoDuplicateWrites(s: State, requests: seq<Request>, tool: string)
    requires Consistent(s) && Disciplined(s) && !RetrySafeTool(tool)
    ensures SendsOf(Run(s, requests).trace, tool) <= SendsOf(s.trace, tool) + CallsOf(requests, tool)
  {
    hide SessionFailure, RetrySafeTool, Consistent, Disciplined, Call, CallShape, SessionShape;
    if requests != [] {
      var front, last := requests[..|requests| - 1], requests[|requests| - 1];
      var u := Run(s, front);
      NoDuplicateWrites(s, front, tool);
      RunDisciplined(s, front);
      match last
      case CloseRequest =>
        if u.session.Some? {
          SendsAdd(u.trace, [Closed(u.session.value)], tool);
          NoSends([Closed(u.session.value)], tool);
        }
      case CallRequest(name, args, env) =>
        var x := CallAdds(u, name, args, env);
        SendsAdd(u.trace, x, tool);
        CallSendsAtMostOnce(u, name, args, x, tool);
    }
  }

  /** In a whole run, a tool that is not retry-safe reaches the server at most once per `Call` that names it. */
  lemma {:induction false} WritesAtMostOncePerCall(token: string, dial: Dial, requests: seq<Request>, tool: string)
    requires Connect(token, dial).0.Ok? && !RetrySafeTool(tool)
    ensures SendsOf(Run(Connect(token, dial).0.value, requests).trace, tool) <= CallsOf(requests, tool)
  {
    hide RetrySafeTool, Consistent, Disciplined, Acceptable, CatalogOf, Refusal;
    var start := Connect(token, dial).0.value;
    ConnectDisciplined(token, dial);
    NoSends(start.trace, tool);
    NoDuplicateWrites(start, requests, tool);
  }

  /** The outcome of the last send in a trace. */
  function LastOutcome(t: seq<Event>): Option<SendOutcome> {
    if t == [] then None
    else if t[|t| - 1].Sent? then Some(t[|t| - 1].outcome)
    else LastOutcome(t[..|t| - 1])
  }

  lemma {:induction false} LastOutcomeExtends(t: seq<Event>, e: Event)
    ensures LastOutcome(t + [e]) == if e.Sent? then Some(e.outcome) else LastOutcome(t)
  {
    assert (t + [e])[..|t|] == t;
  }

  lemma {:induction false} LastOutcomeSkips(t: seq<Event>, y: seq<Event>)
    requires forall i :: 0 <= i < |y| ==> !y[i].Sent?
    ensures LastOutcome(t + y) == LastOutcome(t)
    decreases |y|
  {
    if y == [] {
      assert t + y == t;
    } else {
      assert t + y == t + y[..|y| - 1] + [y[|y| - 1]];
      LastOutcomeExtends(t + y[..|y| - 1], y[|y| - 1]);
      LastOutcomeSkips(t, y[..|y| - 1]);
    }
  }

  /**
   * What a `Call` on a live session reports: the outcome of the last send it made, unless the session failed and
   * could not be restored, which it says instead.
   */
  lemma {:induction false} CallReportsLastSend(s: State, name: string, args: Json, env: CallEnv)
    requires s.session.Some? && name in s.tools
    ensures var (u, r) := Call(s, name, args, env);
      if CostsTheSession(s.tools, CallRequest(name, args, env)) then r.error.Some? && r.text == ""
      else LastOutcome(u.trace).Some? && r == Conclude(LastOutcome(u.trace).value)
  {
    hide SessionFailure, RetrySafeTool, SameCatalog, Acceptable, CatalogOf, Conclude;
    var s0 := s.(calls := s.calls + 1);
    var s1 := CallTool(s0, s.calls, name, args, env.first).0;
    LastOutcomeExtends(s.trace, Sent(s.calls, s.session.value, name, args, env.first));
    var y := ReconnectAdds(s1, env.dial);
    LastOutcomeSkips(s1.trace, y);
    var s2 := Reconnect(s1, env.dial).0;
    if s2.session.Some? {
      LastOutcomeExtends(s2.trace, Sent(s.calls, s2.session.value, name, args, env.second));
    }
  }
}
