/** What the model gets to see, and how a conversation ends: the messages of a run against the trace of the client. */
module Replies {
  import opened Text
  import opened Catalog
  import opened Message
  import opened Session
  import opened SessionRuns
  import opened Calls
  import opened Transcript
  import opened Chat
  import opened Runner

  // ----- Exchanges -----

  /** One tool call the runner made: call `place` of chat round `round`, made in state `before`, and its answer. */
  datatype Exchange = Exchange(
    round: nat,
    place: nat,
    before: State,
    call: ToolCall,
    args: Json,
    message: Message)

  /**
   * The message is what `Call` returned for the call, with the arguments decoded from it: its text, or if it reported
   * an error, that. Nothing else in the final trace carries the number of the call.
   */
  predicate Truthful(w: World, x: Exchange, final: State) {
    var (u, r) := Call(x.before, x.call.name, x.args, w.call(x.round, x.place));
    && w.parse(x.call.args) == Ok(x.args)
    && x.before.tools == final.tools && x.before.trace <= u.trace <= final.trace
    && SendsBy(final.trace, x.before.calls) == SendsBy(u.trace, x.before.calls)
    && SendsBy(x.before.trace, x.before.calls) == []
    && x.message == Message("tool", if r.error.None? then r.text else "error: " + r.error.value, [],
                            x.call.id, x.call.name)
  }

  /** What the message says after these sends; `dial` is what a redial comes to. */
  predicate SaysWhatWasSent(content: string, name: string, tools: Catalog, dial: Dial, sends: seq<Event>)
    requires forall i :: 0 <= i < |sends| ==> sends[i].Sent?
  {
    if sends == [] then
      content == "error: " + if name !in tools then "tool \"" + name + "\" is not in the startup MCP catalog"
                             else "private defi mcp session is not connected"
    else
      match sends[|sends| - 1].outcome
      case Answered(parts, isError) =>
        content == if isError then "error: " + TrimSpace(Concat(TextItems(parts))) else Concat(TextItems(parts))
      case SendFailed(m) =>
        content == "error: " +
          if |sends| == 1 && SessionFailure(m) && !Restores(tools, dial) then
            "private defi mcp session failed: " + m + " (reconnect failed: " + Obstacle(dial) + ")"
          else m
  }

  /** The sends of the exchange in the trace, and the message they amount to. */
  predicate OnTrace(w: World, x: Exchange, final: State) {
    var sends := SendsBy(final.trace, x.before.calls);
    && |sends| <= 2
    && (forall i :: 0 <= i < |sends| ==>
          && sends[i].Sent? && sends[i].call == x.before.calls
          && sends[i].tool == x.call.name && sends[i].args == x.args)
    && SaysWhatWasSent(x.message.content, x.call.name, final.tools, w.call(x.round, x.place).dial, sends)
  }

  lemma {:induction false} TruthOnTrace(w: World, x: Exchange, final: State)
    requires Truthful(w, x, final)
    ensures OnTrace(w, x, final)
  {
    hide Call, SessionFailure, RetrySafeTool, Restores, CatalogOf, TrimSpace, SendsBy, Attempted, Obstacle;
    var s, name, env := x.before, x.call.name, w.call(x.round, x.place);
    if name in s.tools && s.session.Some? {
      var k := s.session.value;
      CallExactly(s, name, x.args, env);
      SendsOfCall(s, k, name, x.args, env);
      SendsByAppend(s.trace, Added(s, k, name, x.args, env), s.calls);
    } else {
      CallWithoutSend(s, name, x.args, env);
    }
  }

  // ----- The exchanges of a conversation -----

  /** The tool messages of a list, in order. */
  function ToolMessages(ms: seq<Message>): seq<Message> {
    if ms == [] then []
    else ToolMessages(ms[..|ms| - 1]) + if ms[|ms| - 1].role == "tool" then [ms[|ms| - 1]] else []
  }

  /** The calls the model has asked for in a list, in order. */
  function CallsAsked(ms: seq<Message>): seq<ToolCall> {
    if ms == [] then [] else CallsAsked(ms[..|ms| - 1]) + ms[|ms| - 1].toolCalls
  }

  function MessagesOf(xs: seq<Exchange>): seq<Message> {
    seq(|xs|, i requires 0 <= i < |xs| => xs[i].message)
  }

  function CallsOf(xs: seq<Exchange>): seq<ToolCall> {
    seq(|xs|, i requires 0 <= i < |xs| => xs[i].call)
  }

  lemma {:induction false} OneMoreMessage(ms: seq<Message>, m: Message)
    ensures ToolMessages(ms + [m]) == ToolMessages(ms) + if m.role == "tool" then [m] else []
    ensures CallsAsked(ms + [m]) == CallsAsked(ms) + m.toolCalls
  {
    assert (ms + [m])[..|ms|] == ms;
  }

  /** The numbers of the calls of some exchanges. */
  function Numbers(xs: seq<Exchange>): set<nat> {
    set i | 0 <= i < |xs| :: xs[i].before.calls
  }

  lemma {:induction false} OneMoreNumber(xs: seq<Exchange>, x: Exchange)
    ensures Numbers(xs + [x]) == Numbers(xs) + {x.before.calls}
  {
    var ys := xs + [x];
    assert ys[|xs|] == x && forall i :: 0 <= i < |xs| ==> ys[i] == xs[i];
  }

  lemma {:induction false} OneMoreExchange(xs: seq<Exchange>, x: Exchange)
    ensures MessagesOf(xs + [x]) == MessagesOf(xs) + [x.message] && CallsOf(xs + [x]) == CallsOf(xs) + [x.call]
  {
  }

  /** These are the exchanges the runner has had, each under a number of its own, in order. */
  predicate Accounted(w: World, t: Talk, xs: seq<Exchange>) {
    && (forall i :: 0 <= i < |xs| ==>
          Truthful(w, xs[i], t.mcp) && xs[i].before.calls < t.mcp.calls)
    && (forall i, j :: 0 <= i < j < |xs| ==> xs[i].before.calls < xs[j].before.calls)
    && t.own == Numbers(xs)
    && ToolMessages(t.messages) == MessagesOf(xs)
  }

  /** What comes later under other numbers leaves an exchange as truthful as it was. */
  lemma {:induction false} StaysTruthful(w: World, x: Exchange, s: State, u: State)
    requires Truthful(w, x, s) && u.tools == s.tools && s.trace <= u.trace
    requires forall i :: |s.trace| <= i < |u.trace| && u.trace[i].Sent? ==> u.trace[i].call != x.before.calls
    ensures Truthful(w, x, u)
  {
    hide Call, SendsBy;
    var more := u.trace[|s.trace|..];
    assert u.trace == s.trace + more;
    NoSendsBy(more, x.before.calls);
    SendsByAppend(s.trace, more, x.before.calls);
  }

  /** What one answer adds to the trace of the client is numbered later than all before. */
  lemma {:induction false} AnswerIsNumberedLater(w: World, round: nat, t: Talk, c: ToolCall, args: Json, k: nat,
                                                 i: nat)
    requires Consistent(t.mcp) && Disciplined(t.mcp)
    requires t.mcp.trace <= AnswerOne(w, round, t, c, args, k).mcp.trace
    requires |t.mcp.trace| <= i < |AnswerOne(w, round, t, c, args, k).mcp.trace|
    requires AnswerOne(w, round, t, c, args, k).mcp.trace[i].Sent?
    ensures AnswerOne(w, round, t, c, args, k).mcp.trace[i].call >= t.mcp.calls
  {
    hide Consistent, Disciplined, Call, RetryPair, SessionShape;
    var s := Run(t.mcp, w.others(round, k));
    RunDisciplined(t.mcp, w.others(round, k));
    var x := CallAdds(s, c.name, args, w.call(round, k));
    var u := AnswerOne(w, round, t, c, args, k);
    if i < |s.trace| {
      assert u.mcp.trace[i] == s.trace[i];
      OthersAreNumberedLater(t.mcp, w.others(round, k), i);
    } else {
      assert u.mcp.trace[i] == x[i - |s.trace|];
    }
  }

  lemma {:induction false} AnswerGrows(w: World, round: nat, t: Talk, c: ToolCall, args: Json, k: nat)
    requires Consistent(t.mcp) && Disciplined(t.mcp)
    ensures var s, u := Run(t.mcp, w.others(round, k)), AnswerOne(w, round, t, c, args, k);
      && Consistent(u.mcp) && Disciplined(u.mcp) && u.mcp.tools == s.tools == t.mcp.tools
      && t.mcp.trace <= s.trace <= u.mcp.trace && t.mcp.calls <= s.calls && u.mcp.calls == s.calls + 1
      && u.own == t.own + {s.calls} && SendsBy(s.trace, s.calls) == []
  {
    hide Consistent, Disciplined, Call, RetryPair, SessionShape;
    var s, env := Run(t.mcp, w.others(round, k)), w.call(round, k);
    RunDisciplined(t.mcp, w.others(round, k));
    StepKeeps(s, CallRequest(c.name, args, env));
    CallDisciplined(s, c.name, args, env);
    var x := CallAdds(s, c.name, args, env);
    NothingSentYet(s);
  }

  lemma {:induction false} AnswerIsTruthful(w: World, round: nat, t: Talk, c: ToolCall, args: Json, k: nat)
    returns (x: Exchange)
    requires Consistent(t.mcp) && Disciplined(t.mcp) && w.parse(c.args) == Ok(args)
    ensures var s, u := Run(t.mcp, w.others(round, k)), AnswerOne(w, round, t, c, args, k);
      && x.round == round && x.place == k && x.before == s && x.call == c && x.args == args
      && Truthful(w, x, u.mcp) && u.messages == t.messages + [x.message] && x.message.role == "tool"
  {
    hide Consistent, Disciplined, Call, Run;
    AnswerGrows(w, round, t, c, args, k);
    var s, u := Run(t.mcp, w.others(round, k)), AnswerOne(w, round, t, c, args, k);
    x := Exchange(round, k, s, c, args, u.messages[|t.messages|]);
    assert u.mcp == Call(s, c.name, args, w.call(round, k)).0;
    assert x.message == ToolMessage(c, Reply(Call(s, c.name, args, w.call(round, k)).1));
  }

  lemma {:induction false} AnswerAccounted(w: World, round: nat, t: Talk, c: ToolCall, args: Json, k: nat,
                                           xs: seq<Exchange>) returns (x: Exchange)
    requires Consistent(t.mcp) && Disciplined(t.mcp) && w.parse(c.args) == Ok(args) && Accounted(w, t, xs)
    ensures x.call == c && Accounted(w, AnswerOne(w, round, t, c, args, k), xs + [x])
  {
    hide Consistent, Disciplined, Truthful, Run;
    x := AnswerIsTruthful(w, round, t, c, args, k);
    AnswerGrows(w, round, t, c, args, k);
    OneMoreExchange(xs, x);
    OneMoreMessage(t.messages, x.message);
    var u := AnswerOne(w, round, t, c, args, k);
    hide AnswerOne, MessagesOf, ToolMessages;
    var ys := xs + [x];
    forall i | 0 <= i < |ys|
      ensures Truthful(w, ys[i], u.mcp) && ys[i].before.calls < u.mcp.calls
    {
      if i < |xs| {
        forall j | |t.mcp.trace| <= j < |u.mcp.trace| && u.mcp.trace[j].Sent?
          ensures u.mcp.trace[j].call != xs[i].before.calls
        {
          AnswerIsNumberedLater(w, round, t, c, args, k, j);
        }
        StaysTruthful(w, xs[i], t.mcp, u.mcp);
      }
    }
    assert u.own == Numbers(ys) by { OneMoreNumber(xs, x); }
  }

  /** Answering the calls of a round adds their exchanges, in order, as far as it gets. */
  lemma {:induction false} AnswersAccounted(w: World, round: nat, t: Talk, calls: seq<ToolCall>, k: nat,
                                            xs: seq<Exchange>) returns (ys: seq<Exchange>)
    requires k <= |calls| && Consistent(t.mcp) && Disciplined(t.mcp) && Accounted(w, t, xs)
    ensures var (u, failed) := AnswerCalls(w, round, t, calls, k);
      && Consistent(u.mcp) && Disciplined(u.mcp) && Accounted(w, u, xs + ys)
      && (failed.None? ==> CallsOf(ys) == calls[k..])
    decreases |calls| - k
  {
    hide Consistent, Disciplined, Accounted, ReadOnly, AnswerOne;
    ys := [];
    assert xs + ys == xs;
    if k < |calls| && ReadOnly(calls[k].name) && w.parse(calls[k].args).Ok? {
      var args := w.parse(calls[k].args).value;
      var u := AnswerOne(w, round, t, calls[k], args, k);
      AnswerGrows(w, round, t, calls[k], args, k);
      var x := AnswerAccounted(w, round, t, calls[k], args, k, xs);
      var rest := AnswersAccounted(w, round, u, calls, k + 1, xs + [x]);
      ys := [x] + rest;
      assert xs + [x] + rest == xs + ys;
      assert calls[k..] == [calls[k]] + calls[k + 1..];
    }
  }

  /** A list holds the answers to some first exchanges, all of them asked for in it, and nothing else was asked. */
  predicate Holds(ms: seq<Message>, xs: seq<Exchange>, n: nat) {
    n <= |xs| && ToolMessages(ms) == MessagesOf(xs[..n]) && CallsAsked(ms) == CallsOf(xs[..n])
  }

  predicate HoldsSome(ms: seq<Message>, xs: seq<Exchange>) {
    exists n :: 0 <= n <= |xs| && Holds(ms, xs, n)
  }

  /** Every list sent holds the answers to the exchanges before it. */
  predicate EachHolds(log: seq<seq<Message>>, xs: seq<Exchange>) {
    forall k :: 0 <= k < |log| ==> HoldsSome(log[k], xs)
  }

  lemma {:induction false} HoldsWithMore(log: seq<seq<Message>>, xs: seq<Exchange>, more: seq<Exchange>)
    requires EachHolds(log, xs)
    ensures EachHolds(log, xs + more)
  {
    forall k | 0 <= k < |log| ensures HoldsSome(log[k], xs + more) {
      var n :| 0 <= n <= |xs| && Holds(log[k], xs, n);
      assert (xs + more)[..n] == xs[..n];
      assert Holds(log[k], xs + more, n);
    }
  }

  lemma {:induction false} OneMoreHolds(log: seq<seq<Message>>, ms: seq<Message>, xs: seq<Exchange>)
    requires EachHolds(log, xs) && ToolMessages(ms) == MessagesOf(xs) && CallsAsked(ms) == CallsOf(xs)
    ensures EachHolds(log + [ms], xs)
  {
    assert xs[..|xs|] == xs;
    assert Holds(ms, xs, |xs|);
    assert HoldsSome(ms, xs);
  }

  /** Sending the list and appending a reply of the model leaves the account as it is. */
  lemma {:induction false} TellingIsNoExchange(w: World, t: Talk, r: Retried, xs: seq<Exchange>)
    requires Accounted(w, t, xs) && r.result.Ok? && FromAdapter(r.result.value.message)
    ensures Accounted(w, Told(t, r), xs)
    ensures CallsAsked(Told(t, r).messages) == CallsAsked(t.messages) + r.result.value.message.toolCalls
  {
    hide Truthful;
    OneMoreMessage(t.messages, r.result.value.message);
  }

  lemma {:induction false} AskingIsNoExchange(w: World, t: Talk, r: Retried, xs: seq<Exchange>)
    requires Accounted(w, t, xs)
    ensures Accounted(w, Asked(t, r), xs)
  {
    hide Truthful;
  }

  lemma {:induction false} AnswersAskNothing(ms: seq<Message>, answers: seq<Message>, calls: seq<ToolCall>)
    requires |answers| <= |calls| && forall j :: 0 <= j < |answers| ==> Answers(answers[j], calls[0 + j])
    ensures CallsAsked(ms + answers) == CallsAsked(ms)
    decreases |answers|
  {
    if answers == [] {
      assert ms + answers == ms;
    } else {
      var n := |answers| - 1;
      AnswersAskNothing(ms, answers[..n], calls);
      assert Answers(answers[n], calls[0 + n]);
      OneMoreMessage(ms + answers[..n], answers[n]);
      assert ms + answers == ms + answers[..n] + [answers[n]];
    }
  }

  lemma {:induction false} CallsOfAppend(xs: seq<Exchange>, ys: seq<Exchange>)
    ensures CallsOf(xs + ys) == CallsOf(xs) + CallsOf(ys)
  {
  }

  lemma {:induction false} AccountedMessages(w: World, t: Talk, xs: seq<Exchange>)
    requires Accounted(w, t, xs)
    ensures ToolMessages(t.messages) == MessagesOf(xs)
  {
  }

  lemma {:induction false} RoundsAccounted(w: World, cfg: Config, t: Talk, round: nat, xs: seq<Exchange>)
    returns (ys: seq<Exchange>)
    requires round <= MAX_ROUNDS && Consistent(t.mcp) && Disciplined(t.mcp)
    requires Accounted(w, t, xs) && CallsAsked(t.messages) == CallsOf(xs) && EachHolds(t.log, xs)
    ensures var u := Rounds(w, cfg, t, round).0; Accounted(w, u, xs + ys) && EachHolds(u.log, xs + ys)
    decreases MAX_ROUNDS - round
  {
    hide ChatRound, AnswerCalls, FinalAnswer, ReadOnly, Accounted, Consistent, Disciplined, EachHolds, FromAdapter;
    hide CallsOf, MessagesOf, CallsAsked, ToolMessages;
    ys := [];
    assert xs + ys == xs;
    if round < MAX_ROUNDS {
      var r := ChatRound(cfg, w.turns(round));
      assert ToolMessages(t.messages) == MessagesOf(xs) by { AccountedMessages(w, t, xs); }
      OneMoreHolds(t.log, t.messages, xs);
      AskingIsNoExchange(w, t, r, xs);
      RoundIsRegular(cfg, w.turns(round));
      if r.result.Ok? {
        TellingIsNoExchange(w, t, r, xs);
        var told, calls := Told(t, r), r.result.value.message.toolCalls;
        if calls != [] {
          var (u, failed) := AnswerCalls(w, round, told, calls, 0);
          var answers := AnswersInOrder(w, round, told, calls, 0);
          ys := AnswersAccounted(w, round, told, calls, 0, xs);
          HoldsWithMore(u.log, xs, ys);
          if failed.None? {
            AnswersAskNothing(told.messages, answers, calls);
            CallsOfAppend(xs, ys);
            assert calls[0..] == calls;
            var rest := RoundsAccounted(w, cfg, u, round + 1, xs + ys);
            assert xs + ys + rest == xs + (ys + rest);
            ys := ys + rest;
            assert Rounds(w, cfg, t, round) == Rounds(w, cfg, u, round + 1);
          }
        }
      }
    }
  }

  lemma NothingAsked()
    ensures ToolMessages([]) == [] && CallsAsked([]) == []
  {
  }

  lemma {:induction false} OpeningAsksNothing(w: World, intent: string)
    ensures ToolMessages(Opening(w, intent)) == [] && CallsAsked(Opening(w, intent)) == []
  {
    var system, user := SystemMessage(w.system), UserMessage(intent);
    assert system.role[0] == 's' && user.role[0] == 'u' && "tool"[0] == 't';
    assert system.toolCalls == [] && user.toolCalls == [];
    assert Opening(w, intent) == [system] + [user];
    assert [] + [system] == [system];
    NothingAsked();
    hide ToolMessages, CallsAsked, SystemMessage, UserMessage, Opening;
    OneMoreMessage([], system);
    OneMoreMessage([system], user);
  }

  lemma {:induction false} NothingAccounted(w: World, s: State, intent: string)
    ensures var t := Talk(s, Opening(w, intent), {}, [], 0);
      Accounted(w, t, []) && CallsAsked(t.messages) == CallsOf([]) && EachHolds(t.log, [])
  {
    hide Opening, Truthful, ToolMessages, CallsAsked;
    OpeningAsksNothing(w, intent);
  }

  /**
   * The model sees what the tools said. From every state the client can reach and whatever happens in between, the
   * tool messages of every list sent are the answers of one exchange each, one for each call asked for in the list, in
   * order. An exchange calls the tool the model named with the arguments decoded from its call, under a number of its
   * own; its message is what the last send under that number came to, or why there was none.
   */
  lemma {:induction false} ModelSeesWhatToolsSaid(token: string, dial: Dial, before: seq<Request>, w: World,
                                                  cfg: Config, offered: seq<Tool>, intent: string)
    returns (xs: seq<Exchange>)
    requires Connect(token, dial).0.Ok?
    ensures var t := Converse(w, cfg, Run(Connect(token, dial).0.value, before), offered, intent).0;
      && (forall i :: 0 <= i < |xs| ==> Truthful(w, xs[i], t.mcp) && OnTrace(w, xs[i], t.mcp))
      && (forall i, j :: 0 <= i < j < |xs| ==> xs[i].before.calls < xs[j].before.calls)
      && t.own == Numbers(xs)
      && ToolMessages(t.messages) == MessagesOf(xs) && EachHolds(t.log, xs)
  {
    hide Connect, Consistent, Disciplined, Rounds, WellKeyed, Truthful, EachHolds, CallsAsked, CallsOf, OnTrace;
    hide MessagesOf, ToolMessages, Opening, Run;
    var start := Connect(token, dial).0.value;
    ConnectDisciplined(token, dial);
    RunDisciplined(start, before);
    var s := Run(start, before);
    var t := Talk(s, Opening(w, intent), {}, [], 0);
    NothingAccounted(w, s, intent);
    xs := [];
    if offered != [] {
      xs := RoundsAccounted(w, cfg, t, 0, []);
      assert [] + xs == xs;
    }
    var u := Converse(w, cfg, s, offered, intent).0;
    assert Accounted(w, u, xs) && EachHolds(u.log, xs);
    forall i | 0 <= i < |xs| ensures OnTrace(w, xs[i], u.mcp) {
      TruthOnTrace(w, xs[i], u.mcp);
    }
  }

  // ----- How a conversation goes and ends -----

  /** A call the runner makes: of a read-only tool, with arguments that decode. */
  predicate Fine(w: World, c: ToolCall) {
    ReadOnly(c.name) && w.parse(c.args).Ok?
  }

  /** The chat round succeeded with calls the runner all makes; the reply and as many answers as calls follow. */
  predicate Continues(w: World, cfg: Config, round: nat, asked: seq<Message>, next: seq<Message>) {
    var r := ChatRound(cfg, w.turns(round)).result;
    && r.Ok? && r.value.message.toolCalls != []
    && (forall j :: 0 <= j < |r.value.message.toolCalls| ==> Fine(w, r.value.message.toolCalls[j]))
    && asked + [r.value.message] <= next && |next| == |asked| + 1 + |r.value.message.toolCalls|
  }

  /** The first call the runner refuses to make, and why. */
  predicate RefusedCall(w: World, calls: seq<ToolCall>, j: nat, error: string) {
    && j < |calls| && !Fine(w, calls[j]) && (forall i :: 0 <= i < j ==> Fine(w, calls[i]))
    && if !ReadOnly(calls[j].name) then error == "LLM selected non-read-only tool " + Quoted(calls[j].name)
       else error == "decode " + calls[j].name + " args: " + w.parse(calls[j].args).error
  }

  /** What the last chat round of a conversation makes of it. */
  predicate Ends(w: World, cfg: Config, round: nat, answer: Result<string, string>) {
    match ChatRound(cfg, w.turns(round)).result
    case Err(e) => answer == Err(e.message)
    case Ok(reply) =>
      var m := reply.message;
      if m.toolCalls == [] then
        answer == Ok(if TrimSpace(m.content) == "" then "(no response)" else TrimSpace(m.content))
      else if forall j :: 0 <= j < |m.toolCalls| ==> Fine(w, m.toolCalls[j]) then
        round == 7 && answer == Err("agent exceeded 8 tool rounds")
      else
        answer.Err? && exists j :: 0 <= j < |m.toolCalls| && RefusedCall(w, m.toolCalls, j, answer.error)
  }

  lemma {:induction false} AnswersStop(w: World, round: nat, t: Talk, calls: seq<ToolCall>, k: nat)
    requires k <= |calls| && forall i :: 0 <= i < k ==> Fine(w, calls[i])
    ensures var failed := AnswerCalls(w, round, t, calls, k).1;
      && (failed.None? <==> forall j :: 0 <= j < |calls| ==> Fine(w, calls[j]))
      && (failed.Some? ==> exists j :: 0 <= j < |calls| && RefusedCall(w, calls, j, failed.value))
    decreases |calls| - k
  {
    hide ReadOnly, AnswerOne, Quoted;
    if k < |calls| {
      if Fine(w, calls[k]) {
        AnswersStop(w, round, AnswerOne(w, round, t, calls[k], w.parse(calls[k].args).value, k), calls, k + 1);
      } else {
        assert RefusedCall(w, calls, k, AnswerCalls(w, round, t, calls, k).1.value);
      }
    }
  }

  lemma EightRounds()
    ensures "agent exceeded " + Decimal(MAX_ROUNDS) + " tool rounds" == "agent exceeded 8 tool rounds"
  {
    assert Decimal(8) == "8";
  }

  lemma {:induction false} RoundsGoOn(w: World, cfg: Config, t: Talk, round: nat)
    requires round < MAX_ROUNDS && |t.log| == round
    ensures var (u, answer) := Rounds(w, cfg, t, round); var n := |u.log|;
      && round < n <= 8 && u.log[..round] == t.log && u.log[round] == t.messages
      && (forall i :: round <= i < n - 1 ==> Continues(w, cfg, i, u.log[i], u.log[i + 1]))
      && Ends(w, cfg, n - 1, answer)
    decreases MAX_ROUNDS - round
  {
    hide ChatRound, AnswerCalls, ReadOnly, Fine, Decimal, RefusedCall, TrimSpace;
    var r := ChatRound(cfg, w.turns(round));
    if r.result.Ok? && r.result.value.message.toolCalls != [] {
      var told, calls := Told(t, r), r.result.value.message.toolCalls;
      var (u, failed) := AnswerCalls(w, round, told, calls, 0);
      var answers := AnswersInOrder(w, round, told, calls, 0);
      AnswersStop(w, round, told, calls, 0);
      if failed.None? {
        EightRounds();
        assert Rounds(w, cfg, t, round) == Rounds(w, cfg, u, round + 1);
        if round + 1 < MAX_ROUNDS {
          RoundsGoOn(w, cfg, u, round + 1);
          assert Continues(w, cfg, round, t.messages, u.messages);
        }
      }
    }
  }

  /**
   * A conversation in full. It starts with the system text and the intent; every chat round but the last succeeds with
   * calls the runner all makes, and the next list is the one before, the reply, and an answer for each call; and what
   * the last round comes to is the result, a trimmed text exactly when the reply asks for nothing.
   */
  lemma {:induction false} ConversationExactly(w: World, cfg: Config, mcp: State, offered: seq<Tool>, intent: string)
    ensures var (t, answer) := Converse(w, cfg, mcp, offered, intent); var n := |t.log|;
      if offered == [] then
        t.log == [] && t.mcp == mcp && answer == Err("no read-only private MCP tools are configured")
      else
        && 1 <= n <= 8
        && t.log[0] == [Message("system", w.system, [], "", ""), Message("user", intent, [], "", "")]
        && (forall i :: 0 <= i < n - 1 ==> Continues(w, cfg, i, t.log[i], t.log[i + 1]))
        && Ends(w, cfg, n - 1, answer)
  {
    hide Rounds, Continues, Ends;
    if offered != [] {
      RoundsGoOn(w, cfg, Talk(mcp, Opening(w, intent), {}, [], 0), 0);
    }
  }
}
