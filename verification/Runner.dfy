/**
 * The agent loop: up to eight chat rounds, each tool call the model makes answered through the private MCP client.
 *
 * The model, the transport and every other user of the shared client are adversaries; `World` holds their choices.
 */
module Runner {
  import opened Text
  import opened Catalog
  import opened Message
  import opened Session
  import opened SessionRuns
  import opened Transcript
  import opened Chat

  const MAX_ROUNDS: nat := 8
  const NO_TOOLS_CONFIGURED := "no read-only private MCP tools are configured"

  predicate ReadOnly(name: string) {
    var n := ToLower(TrimSpace(name));
    HasPrefix(n, "lendora_get_") || n == "lendora_assess_risk"
  }

  /**
   * `system` is the text of the system prompt; `turns(r)` is what the network does in chat round r; `call(r, k)` what
   * the transport does to the k-th tool call of that round; `others(r, k)` what everybody else asks of the shared
   * client before it; `parse` decodes arguments.
   */
  datatype World = World(
    system: string,
    turns: nat -> nat -> Turn,
    call: (nat, nat) -> CallEnv,
    others: (nat, nat) -> seq<Request>,
    parse: string -> Result<Json, string>)

  /** `own` holds the numbers of the runner's own calls, `log` the message list of every chat round started. */
  datatype Talk = Talk(mcp: State, messages: seq<Message>, own: set<nat>, log: seq<seq<Message>>, requests: nat)

  function Reply(r: Returned): string {
    if r.error.Some? then "error: " + r.error.value else r.text
  }

  function AnswerOne(w: World, round: nat, t: Talk, c: ToolCall, args: Json, k: nat): Talk {
    var s := Run(t.mcp, w.others(round, k));
    var (u, r) := Call(s, c.name, args, w.call(round, k));
    t.(mcp := u, own := t.own + {s.calls}, messages := t.messages + [ToolMessage(c, Reply(r))])
  }

  /** Answer the tool calls of one round from the k-th on; `Some` is the error that ends the conversation. */
  function AnswerCalls(w: World, round: nat, t: Talk, calls: seq<ToolCall>, k: nat): (Talk, Option<string>)
    requires k <= |calls|
    decreases |calls| - k
  {
    if k == |calls| then (t, None)
    else
      var c := calls[k];
      if !ReadOnly(c.name) then (t, Some("LLM selected non-read-only tool " + Quoted(c.name)))
      else match w.parse(c.args)
        case Err(e) => (t, Some("decode " + c.name + " args: " + e))
        case Ok(args) => AnswerCalls(w, round, AnswerOne(w, round, t, c, args, k), calls, k + 1)
  }

  function FinalAnswer(content: string): string {
    if TrimSpace(content) != "" then TrimSpace(content) else "(no response)"
  }

  /** The message list has been sent. */
  function Asked(t: Talk, r: Retried): Talk {
    t.(log := t.log + [t.messages], requests := t.requests + |r.delivered|)
  }

  /** The reply has been appended. */
  function Told(t: Talk, r: Retried): Talk
    requires r.result.Ok?
  {
    Asked(t, r).(messages := t.messages + [r.result.value.message])
  }

  /** The conversation from a given round on. */
  function Rounds(w: World, cfg: Config, t: Talk, round: nat): (Talk, Result<string, string>)
    requires round <= MAX_ROUNDS
    decreases MAX_ROUNDS - round
  {
    if round == MAX_ROUNDS then (t, Err("agent exceeded " + Decimal(MAX_ROUNDS) + " tool rounds"))
    else
      var r := ChatRound(cfg, w.turns(round));
      match r.result
      case Err(e) => (Asked(t, r), Err(e.message))
      case Ok(reply) =>
        var m := reply.message;
        var told := Told(t, r);
        if m.toolCalls == [] then (told, Ok(FinalAnswer(m.content)))
        else
          var (answered, failed) := AnswerCalls(w, round, told, m.toolCalls, 0);
          if failed.Some? then (answered, Err(failed.value)) else Rounds(w, cfg, answered, round + 1)
  }

  function Opening(w: World, intent: string): seq<Message> {
    [SystemMessage(w.system), UserMessage(intent)]
  }

  function Converse(w: World, cfg: Config, mcp: State, offered: seq<Tool>, intent: string)
    : (Talk, Result<string, string>)
  {
    var t := Talk(mcp, Opening(w, intent), {}, [], 0);
    if offered == [] then (t, Err(NO_TOOLS_CONFIGURED)) else Rounds(w, cfg, t, 0)
  }

  /** Exactly the read-only tools of the catalog are offered to the model. */
  predicate OffersExactly(offered: seq<Tool>, tools: Catalog) {
    && (forall k :: 0 <= k < |offered| ==>
          ReadOnly(offered[k].name) && offered[k].name in tools && tools[offered[k].name] == offered[k])
    && (forall n :: n in tools && ReadOnly(n) ==> tools[n] in offered)
  }

  /** Which tools are read-only, up to case and surrounding white space. */
  lemma {:induction false} ReadOnlyExactlyWhen(name: string)
    ensures var n := ToLower(TrimSpace(name));
      ReadOnly(name) <==> n == "lendora_assess_risk" || exists rest :: n == "lendora_get_" + rest
  {
    hide ToLower, TrimSpace, HasPrefix;
    HasPrefixExactlyWhen(ToLower(TrimSpace(name)), "lendora_get_");
  }

  /** Of the read-only tools, the client resends all but the risk assessment after a session failure. */
  lemma {:induction false} ReadOnlyIsRetrySafeExceptRisk(name: string)
    requires ReadOnly(name)
    ensures RetrySafeTool(name) <==> ToLower(TrimSpace(name)) != "lendora_assess_risk"
  {
    var n := ToLower(TrimSpace(name));
    if n == "lendora_assess_risk" {
      assert n[0] == 'l' && n[1] == 'e' && n[8] == 'a';
      LacksCharacter(n, "_build_", 1);
    }
  }

  /** Requests of other users of the client. */
  method Serve(mcp: Client, requests: seq<Request>)
    modifies mcp
    ensures mcp.Now() == Run(old(mcp.Now()), requests)
  {
    for i := 0 to |requests|
      invariant mcp.Now() == Run(old(mcp.Now()), requests[..i])
    {
      assert requests[..i + 1][..i] == requests[..i];
      match requests[i]
      case CallRequest(name, args, env) => var _ := mcp.Invoke(name, args, env);
      case CloseRequest => var _ := mcp.Close(None);
    }
    assert requests[..|requests|] == requests;
  }

  lemma {:induction false} AllTools(catalog: Catalog, names: seq<string>, all: seq<Tool>)
    requires WellKeyed(catalog) && Elements(names) == catalog.Keys && Enumerates(catalog, names, all)
    ensures forall k :: 0 <= k < |all| ==> all[k].name in catalog && catalog[all[k].name] == all[k]
    ensures forall n :: n in catalog ==> catalog[n].name == n && catalog[n] in all
  {
    forall n | n in catalog ensures catalog[n] in all {
      assert n in Elements(names);
      var k :| 0 <= k < |names| && names[k] == n;
      assert all[k] == catalog[n];
    }
  }

  class AgentRunner {
    const cfg: Config
    const mcp: Client
    var tools: seq<Tool>

    /** The loop of `New`. */
    static method ReadOnlyTools(ghost catalog: Catalog, all: seq<Tool>) returns (picked: seq<Tool>)
      requires forall k :: 0 <= k < |all| ==> all[k].name in catalog && catalog[all[k].name] == all[k]
      requires forall n :: n in catalog ==> catalog[n].name == n && catalog[n] in all
      ensures OffersExactly(picked, catalog)
    {
      hide ReadOnly;
      picked := [];
      for i := 0 to |all|
        invariant forall k :: 0 <= k < |picked| ==> ReadOnly(picked[k].name) && picked[k] in all
        invariant forall k :: 0 <= k < i && ReadOnly(all[k].name) ==> all[k] in picked
      {
        if ReadOnly(all[i].name) {
          picked := picked + [all[i]];
        }
      }
      forall n | n in catalog && ReadOnly(n) ensures catalog[n] in picked {
        var k :| 0 <= k < |all| && all[k] == catalog[n];
      }
    }

    constructor (cfg: Config, mcp: Client)
      requires WellKeyed(mcp.tools)
      ensures this.cfg == cfg && this.mcp == mcp && OffersExactly(tools, mcp.tools)
    {
      this.cfg, this.mcp := cfg, mcp;
      tools := [];
      new;
      var all;
      ghost var names;
      all, names := mcp.Tools();
      AllTools(mcp.tools, names, all);
      tools := ReadOnlyTools(mcp.tools, all);
    }

    /** The inner loop of `Run`. */
    method AnswerRound(w: World, round: nat, before: seq<Message>, calls: seq<ToolCall>, ghost told: Talk)
      returns (failed: Option<string>, messages: seq<Message>, ghost talk: Talk)
      requires told.messages == before && told.mcp == mcp.Now()
      modifies mcp
      ensures (talk, failed) == AnswerCalls(w, round, told, calls, 0)
      ensures talk.messages == messages && talk.mcp == mcp.Now()
    {
      hide ReadOnly, Call;
      messages, talk := before, told;
      for k := 0 to |calls|
        invariant talk.messages == messages && talk.mcp == mcp.Now()
        invariant AnswerCalls(w, round, told, calls, 0) == AnswerCalls(w, round, talk, calls, k)
      {
        var c := calls[k];
        if !ReadOnly(c.name) {
          return Some("LLM selected non-read-only tool " + Quoted(c.name)), messages, talk;
        }
        var args := w.parse(c.args);
        if args.Err? {
          return Some("decode " + c.name + " args: " + args.error), messages, talk;
        }
        Serve(mcp, w.others(round, k));
        ghost var tag := mcp.calls;
        var out := mcp.Invoke(c.name, args.value, w.call(round, k));
        var text := out.text;
        if out.error.Some? {
          text := "error: " + out.error.value;
        }
        messages := messages + [ToolMessage(c, text)];
        talk := talk.(mcp := mcp.Now(), own := talk.own + {tag}, messages := messages);
      }
      failed := None;
    }

    method Run(w: World, intent: string) returns (answer: Result<string, string>, ghost talk: Talk)
      modifies mcp
      ensures (talk, answer) == Converse(w, cfg, old(mcp.Now()), tools, intent)
      ensures mcp.Now() == talk.mcp
    {
      hide ChatRound, ReadOnly, Call, FinalAnswer, AnswerCalls, Opening;
      talk := Talk(mcp.Now(), Opening(w, intent), {}, [], 0);
      if |tools| == 0 {
        return Err(NO_TOOLS_CONFIGURED), talk;
      }
      ghost var goal := Rounds(w, cfg, talk, 0);
      var messages := Opening(w, intent);
      var round := 0;
      while round < MAX_ROUNDS
        invariant round <= MAX_ROUNDS
        invariant talk.messages == messages && talk.mcp == mcp.Now()
        invariant goal == Rounds(w, cfg, talk, round)
      {
        var res := ChatOnce(cfg, w.turns(round));
        talk := talk.(log := talk.log + [messages], requests := talk.requests + |res.delivered|);
        if res.result.Err? {
          return Err(res.result.error.message), talk;
        }
        var m := res.result.value.message;
        messages := messages + [m];
        talk := talk.(messages := messages);
        if |m.toolCalls| == 0 {
          return Ok(FinalAnswer(m.content)), talk;
        }
        var failed;
        failed, messages, talk := AnswerRound(w, round, messages, m.toolCalls, talk);
        if failed.Some? {
          return Err(failed.value), talk;
        }
        round := round + 1;
      }
      return Err("agent exceeded " + Decimal(MAX_ROUNDS) + " tool rounds"), talk;
    }
  }

  // ----- The transcript -----

  /** What answering calls does to the message list. */
  lemma {:induction false} AnswersInOrder(w: World, round: nat, t: Talk, calls: seq<ToolCall>, k: nat)
    returns (answers: seq<Message>)
    requires k <= |calls|
    ensures var (u, failed) := AnswerCalls(w, round, t, calls, k);
      && u.messages == t.messages + answers && u.log == t.log && u.requests == t.requests
      && (failed.None? ==> |answers| == |calls| - k)
    ensures |answers| <= |calls| - k
    ensures forall j :: 0 <= j < |answers| ==> Answers(answers[j], calls[k + j])
    decreases |calls| - k
  {
    hide ReadOnly, Call, Reply;
    answers := [];
    if k < |calls| && ReadOnly(calls[k].name) && w.parse(calls[k].args).Ok? {
      var u := AnswerOne(w, round, t, calls[k], w.parse(calls[k].args).value, k);
      var rest := AnswersInOrder(w, round, u, calls, k + 1);
      answers := [u.messages[|t.messages|]] + rest;
      assert u.messages + rest == t.messages + answers;
    }
  }

  lemma {:induction false} RoundsKeepProtocol(w: World, cfg: Config, t: Talk, round: nat, intent: string)
    requires round <= MAX_ROUNDS && Protocol(t.messages, w.system, intent)
    requires forall k :: 0 <= k < |t.log| ==> Protocol(t.log[k], w.system, intent)
    requires |t.log| == round && t.requests <= 3 * round
    ensures var u := Rounds(w, cfg, t, round).0;
      && (forall k :: 0 <= k < |u.log| ==> Protocol(u.log[k], w.system, intent))
      && |u.log| <= MAX_ROUNDS && u.requests <= 3 * MAX_ROUNDS
    decreases MAX_ROUNDS - round
  {
    hide ChatRound, AnswerCalls, Protocol, FromAdapter, FinalAnswer, ReadOnly;
    if round < MAX_ROUNDS {
      var r := ChatRound(cfg, w.turns(round));
      ExactlyOnceStreaming(cfg, w.turns(round));
      RoundIsRegular(cfg, w.turns(round));
      if r.result.Ok? && r.result.value.message.toolCalls != [] {
        var m := r.result.value.message;
        var told := Told(t, r);
        var (u, failed) := AnswerCalls(w, round, told, m.toolCalls, 0);
        var answers := AnswersInOrder(w, round, told, m.toolCalls, 0);
        if failed.None? {
          ProtocolGrows(t.messages, w.system, intent, m, answers);
          RoundsKeepProtocol(w, cfg, u, round + 1, intent);
        }
      }
    }
  }

  /**
   * Transcript protocol. Whatever the model and the tools do, every message list sent to the model is system, user,
   * and blocks of one assistant message with k > 0 calls and its k answers in order; there are at most 8 chat rounds,
   * and at most 24 requests to the model.
   */
  lemma {:induction false} TranscriptProtocol(w: World, cfg: Config, mcp: State, offered: seq<Tool>, intent: string)
    ensures var t := Converse(w, cfg, mcp, offered, intent).0;
      && (forall k :: 0 <= k < |t.log| ==> Protocol(t.log[k], w.system, intent))
      && |t.log| <= 8 && t.requests <= 24
  {
    var t := Talk(mcp, Opening(w, intent), {}, [], 0);
    assert t.messages[2..] == [];
    RoundsKeepProtocol(w, cfg, t, 0, intent);
  }

  /** Each message list sent extends the one before. */
  predicate Growing(log: seq<seq<Message>>) {
    forall j, k :: 0 <= j < k < |log| ==> log[j] < log[k]
  }

  lemma {:induction false} GrowsByOne(log: seq<seq<Message>>, messages: seq<Message>, next: seq<Message>)
    requires Growing(log) && (forall j :: 0 <= j < |log| ==> log[j] < messages) && messages < next
    ensures Growing(log + [messages]) && forall j :: 0 <= j < |log + [messages]| ==> (log + [messages])[j] < next
  {
  }

  lemma {:induction false} RoundsGrow(w: World, cfg: Config, t: Talk, round: nat)
    requires round <= MAX_ROUNDS && Growing(t.log) && forall j :: 0 <= j < |t.log| ==> t.log[j] < t.messages
    ensures var u := Rounds(w, cfg, t, round).0;
      && Growing(u.log) && t.log <= u.log
      && (round < MAX_ROUNDS ==> |u.log| > |t.log| && u.log[|t.log|] == t.messages)
    decreases MAX_ROUNDS - round
  {
    hide ChatRound, AnswerCalls, FinalAnswer, ReadOnly, Growing;
    if round < MAX_ROUNDS {
      var r := ChatRound(cfg, w.turns(round));
      GrowsByOne(t.log, t.messages, t.messages + [UserMessage("")]);
      if r.result.Ok? && r.result.value.message.toolCalls != [] {
        var calls := r.result.value.message.toolCalls;
        var answers := AnswersInOrder(w, round, Told(t, r), calls, 0);
        var (u, failed) := AnswerCalls(w, round, Told(t, r), calls, 0);
        if failed.None? {
          assert u.messages == t.messages + ([r.result.value.message] + answers);
          GrowsByOne(t.log, t.messages, u.messages);
          RoundsGrow(w, cfg, u, round + 1);
        }
      }
    }
  }

  lemma {:induction false} AnswerIsLastMessage(w: World, cfg: Config, t: Talk, round: nat)
    requires round <= MAX_ROUNDS
    ensures var (u, r) := Rounds(w, cfg, t, round);
      r.Ok? ==> u.messages != [] && var last := u.messages[|u.messages| - 1];
                last.toolCalls == [] && r.value == FinalAnswer(last.content)
    decreases MAX_ROUNDS - round
  {
    hide ChatRound, AnswerCalls, FinalAnswer, ReadOnly;
    if round < MAX_ROUNDS {
      var r := ChatRound(cfg, w.turns(round));
      if r.result.Ok? && r.result.value.message.toolCalls != [] {
        var (u, failed) := AnswerCalls(w, round, Told(t, r), r.result.value.message.toolCalls, 0);
        if failed.None? {
          AnswerIsLastMessage(w, cfg, u, round + 1);
        }
      }
    }
  }

  /**
   * The model always sees the whole conversation: the first round sends system and user message, every later one
   * extends the list before; and the final answer is the text of the last message, which has no tool calls.
   */
  lemma {:induction false} ConversationOnlyGrows(w: World, cfg: Config, mcp: State, offered: seq<Tool>, intent: string)
    requires offered != []
    ensures var (t, r) := Converse(w, cfg, mcp, offered, intent);
      && t.log != [] && t.log[0] == Opening(w, intent) && Growing(t.log)
      && (r.Ok? ==> t.messages != [] && var last := t.messages[|t.messages| - 1];
                    last.toolCalls == [] && r.value == FinalAnswer(last.content))
  {
    hide Rounds, FinalAnswer, Opening;
    RoundsGrow(w, cfg, Talk(mcp, Opening(w, intent), {}, [], 0), 0);
    AnswerIsLastMessage(w, cfg, Talk(mcp, Opening(w, intent), {}, [], 0), 0);
  }

  predicate CallsDecode(w: World, m: Message) {
    forall j :: 0 <= j < |m.toolCalls| ==> w.parse(m.toolCalls[j].args).Ok?
  }

  /** The arguments of every tool call in the list decode. */
  predicate ArgumentsDecode(w: World, ms: seq<Message>) {
    forall i :: 0 <= i < |ms| ==> CallsDecode(w, ms[i])
  }

  /** Only a round whose every call decodes is answered to the end. */
  lemma {:induction false} AnsweredCallsDecode(w: World, round: nat, t: Talk, calls: seq<ToolCall>, k: nat)
    requires k <= |calls|
    ensures AnswerCalls(w, round, t, calls, k).1.None? ==>
      forall j :: k <= j < |calls| ==> w.parse(calls[j].args).Ok?
    decreases |calls| - k
  {
    hide ReadOnly, AnswerOne;
    if k < |calls| && ReadOnly(calls[k].name) && w.parse(calls[k].args).Ok? {
      AnsweredCallsDecode(w, round, AnswerOne(w, round, t, calls[k], w.parse(calls[k].args).value, k), calls, k + 1);
    }
  }

  lemma {:induction false} DecodedBlock(w: World, ms: seq<Message>, m: Message, answers: seq<Message>)
    requires ArgumentsDecode(w, ms) && CallsDecode(w, m)
    requires |answers| <= |m.toolCalls| && forall j :: 0 <= j < |answers| ==> Answers(answers[j], m.toolCalls[0 + j])
    ensures ArgumentsDecode(w, ms + [m] + answers)
  {
    forall j | 0 <= j < |answers| ensures CallsDecode(w, answers[j]) {
      assert Answers(answers[j], m.toolCalls[0 + j]);
    }
  }

  lemma {:induction false} RoundsDecode(w: World, cfg: Config, t: Talk, round: nat)
    requires round <= MAX_ROUNDS && ArgumentsDecode(w, t.messages)
    requires forall k :: 0 <= k < |t.log| ==> ArgumentsDecode(w, t.log[k])
    ensures var u := Rounds(w, cfg, t, round).0;
      forall k :: 0 <= k < |u.log| ==> ArgumentsDecode(w, u.log[k])
    decreases MAX_ROUNDS - round
  {
    hide ChatRound, AnswerCalls, FinalAnswer, ReadOnly, ArgumentsDecode, Answers;
    if round < MAX_ROUNDS {
      var r := ChatRound(cfg, w.turns(round));
      if r.result.Ok? && r.result.value.message.toolCalls != [] {
        var m := r.result.value.message;
        var told := Told(t, r);
        var (u, failed) := AnswerCalls(w, round, told, m.toolCalls, 0);
        var answers := AnswersInOrder(w, round, told, m.toolCalls, 0);
        if failed.None? {
          AnsweredCallsDecode(w, round, told, m.toolCalls, 0);
          DecodedBlock(w, t.messages, m, answers);
          RoundsDecode(w, cfg, u, round + 1);
          assert Rounds(w, cfg, t, round) == Rounds(w, cfg, u, round + 1);
        }
      }
    }
  }

  /** A call whose arguments do not decode ends the conversation, so no list that is sent holds one. */
  lemma {:induction false} EveryArgumentDecodes(w: World, cfg: Config, mcp: State, offered: seq<Tool>, intent: string,
                                                k: nat)
    requires k < |Converse(w, cfg, mcp, offered, intent).0.log|
    ensures ArgumentsDecode(w, Converse(w, cfg, mcp, offered, intent).0.log[k])
  {
    hide Rounds;
    var t := Talk(mcp, Opening(w, intent), {}, [], 0);
    assert ArgumentsDecode(w, t.messages);
    RoundsDecode(w, cfg, t, 0);
    assert offered != [];
    assert Converse(w, cfg, mcp, offered, intent) == Rounds(w, cfg, t, 0);
  }

  /**
   * The runner decodes arguments as the translation does, but into an object: it accepts what decodes to an object,
   * and null, which leaves it with an object that is not there.
   */
  ghost predicate DecodesObjects(w: World, parse: Parser) {
    forall s, v :: w.parse(s) == Ok(v) <==> parse(s) == Some(v) && (v.JObject? || v.JNull?)
  }

  /** The object that decoded arguments stand for; null leaves none, which is sent as an empty one. */
  function Given(v: Json): Json {
    if v == JNull then EMPTY_OBJECT else v
  }

  /** The same call again: same id and name, and the runner decodes its arguments to the same object. */
  predicate MeansTheSame(w: World, before: ToolCall, after: ToolCall) {
    && after == before.(args := after.args)
    && w.parse(before.args).Ok? && w.parse(after.args) == Ok(Given(w.parse(before.args).value))
  }

  lemma {:induction false} DecodedMeansTheSame(w: World, parse: Parser, before: ToolCall, after: ToolCall)
    requires DecodesObjects(w, parse) && parse("").None?
    requires w.parse(before.args).Ok? && SameCall(parse, before, after)
    ensures MeansTheSame(w, before, after)
  {
    var v := w.parse(before.args).value;
    assert w.parse(before.args) == Ok(v);
    assert InputOf(parse, before.args) == Given(v);
    assert w.parse(after.args) == Ok(Given(v));
  }

  /** The same message again, but for the tool's name on an answer and the way arguments are written. */
  predicate ComesBack(w: World, before: Message, after: Message) {
    && after == before.(name := "", toolCalls := after.toolCalls)
    && |after.toolCalls| == |before.toolCalls|
    && forall j :: 0 <= j < |before.toolCalls| ==> MeansTheSame(w, before.toolCalls[j], after.toolCalls[j])
  }

  lemma {:induction false} SameComesBack(w: World, parse: Parser, render: Renderer, ms: seq<Message>, i: nat,
                                         after: Message)
    requires i < |ms| && ArgumentsDecode(w, ms) && SameMessage(parse, ms[i], after)
    requires DecodesObjects(w, parse) && Encodes(parse, render)
    ensures ComesBack(w, ms[i], after)
  {
    hide DecodesObjects, SameCall, MeansTheSame;
    var before := ms[i];
    forall j | 0 <= j < |before.toolCalls| ensures MeansTheSame(w, before.toolCalls[j], after.toolCalls[j]) {
      DecodedMeansTheSame(w, parse, before.toolCalls[j], after.toolCalls[j]);
    }
  }

  /**
   * Every list sent survives the translation to the Anthropic format: paired results, nothing empty, and on the way
   * back every message is the same again, each call with arguments that mean the same to the runner.
   */
  lemma {:induction false} EveryRequestTranslates(w: World, cfg: Config, mcp: State, offered: seq<Tool>,
                                                  intent: string, k: nat, parse: Parser, render: Renderer)
    requires k < |Converse(w, cfg, mcp, offered, intent).0.log|
    ensures var ms := Converse(w, cfg, mcp, offered, intent).0.log[k];
      var out := Translate(parse, ms);
      var back := Back(render, Join(Systems(ms), "\n\n"), out);
      && |out| == |ms| - 1 && out != [] && out[0] == UserText(intent) && Paired(out[1..])
      && |back| == |ms| && (forall i :: 0 <= i < |ms| ==> back[i] == Canonical(parse, render, ms[i]))
      && (DecodesObjects(w, parse) && Encodes(parse, render) ==>
            forall i :: 0 <= i < |ms| ==> ComesBack(w, ms[i], back[i]))
  {
    hide Protocol, Converse, Translate, Paired, Systems, Back, Canonical, Encodes, DecodesObjects, ComesBack;
    TranscriptProtocol(w, cfg, mcp, offered, intent);
    var ms := Converse(w, cfg, mcp, offered, intent).0.log[k];
    TranslateKeepsOrder(parse, ms, w.system, intent);
    TranslatePairsResults(parse, ms, w.system, intent);
    TranslateInvertible(parse, render, ms, w.system, intent);
    if DecodesObjects(w, parse) && Encodes(parse, render) {
      EveryArgumentDecodes(w, cfg, mcp, offered, intent, k);
      var back := Back(render, Join(Systems(ms), "\n\n"), Translate(parse, ms));
      forall i | 0 <= i < |ms| ensures ComesBack(w, ms[i], back[i]) {
        SameComesBack(w, parse, render, ms, i, back[i]);
      }
    }
  }

  // ----- Containment -----

  /** The runner's own sends name read-only tools of the catalog only. */
  predicate Contained(t: Talk) {
    && (forall n :: n in t.own ==> n < t.mcp.calls)
    && (forall i :: 0 <= i < |t.mcp.trace| && t.mcp.trace[i].Sent? && t.mcp.trace[i].call in t.own ==>
          ReadOnly(t.mcp.trace[i].tool) && t.mcp.trace[i].tool in t.mcp.tools)
  }

  lemma {:induction false} StepExtends(s: State, r: Request)
    requires Consistent(s)
    ensures s.trace <= Step(s, r).trace
  {
    hide Consistent, Call;
    if r.CallRequest? {
      var x := CallAdds(s, r.name, r.args, r.env);
    }
  }

  /** What others do to the client gets numbers of its own. */
  lemma {:induction false} OthersAreNumberedLater(s: State, requests: seq<Request>, i: nat)
    requires Consistent(s) && Disciplined(s)
    requires |s.trace| <= i < |Run(s, requests).trace| && Run(s, requests).trace[i].Sent?
    ensures Run(s, requests).trace[i].call >= s.calls
  {
    hide Consistent, Disciplined, Call, RetryPair, SessionShape;
    if requests != [] {
      var front, last := requests[..|requests| - 1], requests[|requests| - 1];
      var u := Run(s, front);
      RunDisciplined(s, front);
      if i < |u.trace| {
        StepExtends(u, last);
        assert u.trace[i] == Step(u, last).trace[i];
        OthersAreNumberedLater(s, front, i);
      } else if last.CallRequest? {
        var x := CallAdds(u, last.name, last.args, last.env);
        assert Run(s, requests).trace[i] == x[i - |u.trace|];
      }
    }
  }

  lemma {:induction false} EarlierCall(s: State, i: nat)
    requires Disciplined(s) && i < |s.trace| && s.trace[i].Sent?
    ensures s.trace[i].call < s.calls
  {
  }

  lemma {:induction false} AnswerOneContained(w: World, round: nat, t: Talk, c: ToolCall, args: Json, k: nat)
    requires Consistent(t.mcp) && Disciplined(t.mcp) && Contained(t) && ReadOnly(c.name)
    ensures var u := AnswerOne(w, round, t, c, args, k);
      Consistent(u.mcp) && Disciplined(u.mcp) && Contained(u) && u.mcp.tools == t.mcp.tools
  {
    hide Consistent, Disciplined, Call, ReadOnly, RetryPair, SessionShape;
    var others := w.others(round, k);
    var s := Run(t.mcp, others);
    var u := AnswerOne(w, round, t, c, args, k);
    RunDisciplined(t.mcp, others);
    var r := CallRequest(c.name, args, w.call(round, k));
    StepKeeps(s, r);
    CallDisciplined(s, c.name, args, w.call(round, k));
    var x := CallAdds(s, c.name, args, w.call(round, k));
    forall i | 0 <= i < |u.mcp.trace| && u.mcp.trace[i].Sent? && u.mcp.trace[i].call in u.own
      ensures ReadOnly(u.mcp.trace[i].tool) && u.mcp.trace[i].tool in u.mcp.tools
    {
      if i >= |s.trace| {
        assert u.mcp.trace[i] == x[i - |s.trace|];
      } else {
        assert u.mcp.trace[i] == s.trace[i];
        EarlierCall(s, i);
        if i >= |t.mcp.trace| {
          OthersAreNumberedLater(t.mcp, others, i);
        } else {
          assert s.trace[i] == t.mcp.trace[i];
        }
      }
    }
  }

  lemma {:induction false} AnswersContained(w: World, round: nat, t: Talk, calls: seq<ToolCall>, k: nat)
    requires k <= |calls| && Consistent(t.mcp) && Disciplined(t.mcp) && Contained(t)
    ensures var u := AnswerCalls(w, round, t, calls, k).0;
      Consistent(u.mcp) && Disciplined(u.mcp) && Contained(u) && u.mcp.tools == t.mcp.tools
    decreases |calls| - k
  {
    hide Consistent, Disciplined, Contained, ReadOnly, AnswerOne;
    if k < |calls| && ReadOnly(calls[k].name) && w.parse(calls[k].args).Ok? {
      var args := w.parse(calls[k].args).value;
      AnswerOneContained(w, round, t, calls[k], args, k);
      AnswersContained(w, round, AnswerOne(w, round, t, calls[k], args, k), calls, k + 1);
    }
  }

  lemma {:induction false} RoundsContained(w: World, cfg: Config, t: Talk, round: nat)
    requires round <= MAX_ROUNDS && Consistent(t.mcp) && Disciplined(t.mcp) && Contained(t)
    ensures var u := Rounds(w, cfg, t, round).0;
      Contained(u) && u.mcp.tools == t.mcp.tools
    decreases MAX_ROUNDS - round
  {
    hide Consistent, Disciplined, ReadOnly, AnswerCalls, ChatRound, FinalAnswer;
    if round < MAX_ROUNDS {
      var r := ChatRound(cfg, w.turns(round));
      if r.result.Ok? && r.result.value.message.toolCalls != [] {
        var m := r.result.value.message;
        var told := Told(t, r);
        AnswersContained(w, round, told, m.toolCalls, 0);
        RoundsContained(w, cfg, AnswerCalls(w, round, told, m.toolCalls, 0).0, round + 1);
      }
    }
  }

  predicate Offered(offered: seq<Tool>, name: string) {
    ReadOnly(name) && exists k :: 0 <= k < |offered| && offered[k].name == name
  }

  lemma {:induction false} NothingOwnYet(s: State, messages: seq<Message>)
    ensures Contained(Talk(s, messages, {}, [], 0))
  {
  }

  lemma {:induction false} OfferedByName(offered: seq<Tool>, tools: Catalog, name: string)
    requires WellKeyed(tools) && OffersExactly(offered, tools) && name in tools && ReadOnly(name)
    ensures Offered(offered, name)
  {
    hide ReadOnly;
    NamedByKey(tools, name);
    assert tools[name] in offered;
    var k :| 0 <= k < |offered| && offered[k] == tools[name];
    assert offered[k].name == name;
  }

  /**
   * Read-only containment. From any state the client can reach, with any replies of the model, any number of
   * reconnects and any traffic of others in between, every tool the runner has sent is one it offered the model.
   */
  lemma {:induction false} ReadOnlyContainment(token: string, dial: Dial, before: seq<Request>, w: World, cfg: Config,
                                               offered: seq<Tool>, intent: string)
    requires Connect(token, dial).0.Ok?
    requires OffersExactly(offered, Connect(token, dial).0.value.tools)
    ensures var t := Converse(w, cfg, Run(Connect(token, dial).0.value, before), offered, intent).0;
      forall i :: 0 <= i < |t.mcp.trace| && t.mcp.trace[i].Sent? && t.mcp.trace[i].call in t.own ==>
        Offered(offered, t.mcp.trace[i].tool)
  {
    hide Connect, Consistent, Disciplined, ReadOnly, Rounds, WellKeyed, Offered, OffersExactly;
    ConnectDisciplined(token, dial);
    var start := Connect(token, dial).0.value;
    RunDisciplined(start, before);
    var s := Run(start, before);
    RoundsContained(w, cfg, Talk(s, Opening(w, intent), {}, [], 0), 0);
    var t := Converse(w, cfg, s, offered, intent).0;
    assert Contained(t) && t.mcp.tools == start.tools by { NothingOwnYet(s, Opening(w, intent)); }
    forall i | 0 <= i < |t.mcp.trace| && t.mcp.trace[i].Sent? && t.mcp.trace[i].call in t.own
      ensures Offered(offered, t.mcp.trace[i].tool)
    {
      OfferedByName(offered, start.tools, t.mcp.trace[i].tool);
    }
  }
}
