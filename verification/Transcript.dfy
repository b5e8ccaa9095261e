/** The shape of the conversations the agent sends, and their translation to the Anthropic wire format. */
module Transcript {
  import opened Text
  import opened Catalog
  import opened Message

  // ----- The shape -----

  predicate FromAdapter(m: Message) {
    && m == AssistantMessage(m.content, m.toolCalls)
    && forall k :: 0 <= k < |m.toolCalls| ==> m.toolCalls[k].kind == "function"
  }

  predicate Answers(m: Message, call: ToolCall) {
    m == ToolMessage(call, m.content)
  }

  /** `ms` starts with an answer to each of the calls, in their order. */
  predicate AnswersAll(ms: seq<Message>, calls: seq<ToolCall>) {
    |calls| <= |ms| && forall k :: 0 <= k < |calls| ==> Answers(ms[k], calls[k])
  }

  /** `ms` starts with a block: an assistant message with k > 0 tool calls, then exactly its k answers in order. */
  predicate BlockFirst(ms: seq<Message>) {
    && ms != [] && FromAdapter(ms[0]) && ms[0].toolCalls != []
    && |ms[0].toolCalls| < |ms| && AnswersAll(ms[1..], ms[0].toolCalls)
  }

  function AfterBlock(ms: seq<Message>): (rest: seq<Message>)
    requires BlockFirst(ms)
    ensures |rest| < |ms|
  {
    ms[1 + |ms[0].toolCalls|..]
  }

  /** Any number of blocks. */
  predicate Blocks(ms: seq<Message>)
    decreases |ms|
  {
    ms == [] || (BlockFirst(ms) && Blocks(AfterBlock(ms)))
  }

  /** A system message, the user's request, and blocks. */
  predicate Protocol(ms: seq<Message>, system: string, intent: string) {
    && |ms| >= 2
    && ms[0] == SystemMessage(system) && ms[1] == UserMessage(intent)
    && Blocks(ms[2..])
  }

  lemma {:induction false} BlockStaysFirst(ms: seq<Message>, more: seq<Message>)
    requires BlockFirst(ms)
    ensures BlockFirst(ms + more) && AfterBlock(ms + more) == AfterBlock(ms) + more
  {
    assert (ms + more)[0] == ms[0] && (ms + more)[1..] == ms[1..] + more;
  }

  lemma {:induction false} BlocksAppend(a: seq<Message>, b: seq<Message>)
    requires Blocks(a) && Blocks(b)
    ensures Blocks(a + b)
    decreases |a|
  {
    hide BlockFirst, AfterBlock;
    if a == [] {
      assert a + b == b;
    } else {
      BlockStaysFirst(a, b);
      BlocksAppend(AfterBlock(a), b);
    }
  }

  lemma {:induction false} OneBlock(assistant: Message, answers: seq<Message>)
    requires FromAdapter(assistant) && assistant.toolCalls != []
    requires |answers| == |assistant.toolCalls| && AnswersAll(answers, assistant.toolCalls)
    ensures Blocks([assistant] + answers)
  {
    hide FromAdapter, AnswersAll;
    var ms := [assistant] + answers;
    assert ms[1..] == answers;
    assert AfterBlock(ms) == [];
  }

  lemma {:induction false} ProtocolGrows(ms: seq<Message>, system: string, intent: string, assistant: Message,
                                         answers: seq<Message>)
    requires Protocol(ms, system, intent)
    requires FromAdapter(assistant) && assistant.toolCalls != []
    requires |answers| == |assistant.toolCalls| && AnswersAll(answers, assistant.toolCalls)
    ensures Protocol(ms + [assistant] + answers, system, intent)
  {
    hide Blocks, FromAdapter, AnswersAll;
    OneBlock(assistant, answers);
    BlocksAppend(ms[2..], [assistant] + answers);
    assert (ms + [assistant] + answers)[2..] == ms[2..] + ([assistant] + answers);
  }

  // ----- The translation -----

  datatype ContentBlock = TextBlock(text: string) | ToolUse(id: string, name: string, input: Json)

  datatype WireMessage =
    | UserText(content: string)
    | ToolResult(toolUseId: string, content: string)
    | AssistantBlocks(blocks: seq<ContentBlock>)

  /** JSON decoding of call arguments; `None` when they do not decode. */
  type Parser = string -> Option<Json>

  const EMPTY_OBJECT := JObject(map[])

  function InputOf(parse: Parser, args: string): Json {
    var input := if args != "" && parse(args).Some? then parse(args).value else JNull;
    if input == JNull then EMPTY_OBJECT else input
  }

  function Uses(parse: Parser, calls: seq<ToolCall>): seq<ContentBlock> {
    if calls == [] then []
    else
      var c := calls[|calls| - 1];
      Uses(parse, calls[..|calls| - 1]) + [ToolUse(c.id, c.name, InputOf(parse, c.args))]
  }

  function TextFirst(content: string): seq<ContentBlock> {
    if content != "" then [TextBlock(content)] else []
  }

  function TranslateOne(parse: Parser, m: Message): WireMessage {
    if m.role == "tool" then ToolResult(m.toolCallId, m.content)
    else if m.role == "assistant" then AssistantBlocks(TextFirst(m.content) + Uses(parse, m.toolCalls))
    else UserText(m.content)
  }

  function Translate(parse: Parser, ms: seq<Message>): seq<WireMessage> {
    if ms == [] then []
    else
      var last := ms[|ms| - 1];
      Translate(parse, ms[..|ms| - 1]) + if last.role == "system" then [] else [TranslateOne(parse, last)]
  }

  function Systems(ms: seq<Message>): seq<string> {
    if ms == [] then []
    else
      var last := ms[|ms| - 1];
      Systems(ms[..|ms| - 1]) + if last.role == "system" then [last.content] else []
  }

  /** The content of one assistant message. */
  method ToolUses(parse: Parser, m: Message) returns (content: seq<ContentBlock>)
    ensures content == TextFirst(m.content) + Uses(parse, m.toolCalls)
  {
    content := [];
    if m.content != "" {
      content := content + [TextBlock(m.content)];
    }
    for k := 0 to |m.toolCalls|
      invariant content == TextFirst(m.content) + Uses(parse, m.toolCalls[..k])
    {
      var tc := m.toolCalls[k];
      assert m.toolCalls[..k + 1][..k] == m.toolCalls[..k];
      var input := JNull;
      if tc.args != "" {
        var decoded := parse(tc.args);
        if decoded.Some? {
          input := decoded.value;
        }
      }
      if input == JNull {
        input := EMPTY_OBJECT;
      }
      content := content + [ToolUse(tc.id, tc.name, input)];
    }
    assert m.toolCalls[..|m.toolCalls|] == m.toolCalls;
  }

  /** `toAnthropicMessages`. */
  method ToAnthropicMessages(parse: Parser, ms: seq<Message>) returns (system: string, out: seq<WireMessage>)
    ensures system == Join(Systems(ms), "\n\n")
    ensures out == Translate(parse, ms)
  {
    var sys := [];
    out := [];
    for k := 0 to |ms|
      invariant sys == Systems(ms[..k])
      invariant out == Translate(parse, ms[..k])
    {
      var m := ms[k];
      assert ms[..k + 1][..k] == ms[..k];
      if m.role == "system" {
        sys := sys + [m.content];
      } else if m.role == "tool" {
        out := out + [ToolResult(m.toolCallId, m.content)];
      } else if m.role == "assistant" {
        var content := ToolUses(parse, m);
        out := out + [AssistantBlocks(content)];
      } else {
        out := out + [UserText(m.content)];
      }
    }
    assert ms[..|ms|] == ms;
    system := Join(sys, "\n\n");
  }

  // ----- What the translation preserves -----

  predicate NoSystem(ms: seq<Message>) {
    forall k :: 0 <= k < |ms| ==> ms[k].role != "system"
  }

  /** A message the protocol allows after the system message. */
  predicate Regular(m: Message) {
    FromAdapter(m) || m == UserMessage(m.content) || m == Message("tool", m.content, [], m.toolCallId, m.name)
  }

  lemma {:induction false} BlockIsRegular(ms: seq<Message>, k: nat)
    requires BlockFirst(ms) && k < |ms|
    ensures k <= |ms[0].toolCalls| ==> Regular(ms[k])
    ensures k > |ms[0].toolCalls| ==>
      var j := k - 1 - |ms[0].toolCalls|; j < |AfterBlock(ms)| && ms[k] == AfterBlock(ms)[j]
  {
    if 1 <= k <= |ms[0].toolCalls| {
      assert Answers(ms[1..][k - 1], ms[0].toolCalls[k - 1]);
    }
  }

  lemma {:induction false} BlocksAreRegular(ms: seq<Message>, k: nat)
    requires Blocks(ms) && k < |ms|
    ensures Regular(ms[k]) && ms[k].role != "system"
    decreases |ms|
  {
    hide AfterBlock, AnswersAll;
    BlockIsRegular(ms, k);
    if k > |ms[0].toolCalls| {
      BlocksAreRegular(AfterBlock(ms), k - 1 - |ms[0].toolCalls|);
    }
  }

  lemma {:induction false} TranslatePointwise(parse: Parser, ms: seq<Message>)
    requires NoSystem(ms)
    ensures |Translate(parse, ms)| == |ms|
    ensures forall k :: 0 <= k < |ms| ==> Translate(parse, ms)[k] == TranslateOne(parse, ms[k])
  {
    hide TranslateOne;
    if ms != [] {
      var n := |ms| - 1;
      TranslatePointwise(parse, ms[..n]);
      forall k | 0 <= k < |ms| ensures Translate(parse, ms)[k] == TranslateOne(parse, ms[k]) {
        if k < n {
          assert ms[..n][k] == ms[k];
        }
      }
    }
  }

  lemma {:induction false} NoSystemText(ms: seq<Message>)
    requires NoSystem(ms)
    ensures Systems(ms) == []
  {
    if ms != [] {
      NoSystemText(ms[..|ms| - 1]);
    }
  }

  lemma {:induction false} TranslateAppend(parse: Parser, a: seq<Message>, b: seq<Message>)
    ensures Translate(parse, a + b) == Translate(parse, a) + Translate(parse, b)
    ensures Systems(a + b) == Systems(a) + Systems(b)
    decreases |b|
  {
    hide TranslateOne;
    if b == [] {
      assert a + b == a;
    } else {
      assert (a + b)[..|a + b| - 1] == a + b[..|b| - 1];
      TranslateAppend(parse, a, b[..|b| - 1]);
    }
  }

  lemma {:induction false} HeadOnly(parse: Parser, head: seq<Message>, system: string)
    requires head == [SystemMessage(system)]
    ensures Translate(parse, head) == [] && Systems(head) == [system]
  {
    assert head[..0] == [];
  }

  /** On every transcript of the protocol: the system text is hoisted, all other messages keep their places. */
  lemma {:induction false} TranslateKeepsOrder(parse: Parser, ms: seq<Message>, system: string, intent: string)
    requires Protocol(ms, system, intent)
    ensures var out := Translate(parse, ms);
      && Join(Systems(ms), "\n\n") == system && |out| == |ms| - 1
      && forall k :: 0 <= k < |out| ==> out[k] == TranslateOne(parse, ms[k + 1])
  {
    hide TranslateOne, Translate, Systems, Blocks;
    var head, tail := ms[..1], ms[1..];
    forall k | 0 <= k < |tail| ensures tail[k].role != "system" {
      if k > 0 {
        BlocksAreRegular(ms[2..], k - 1);
        assert tail[k] == ms[2..][k - 1];
      }
    }
    assert ms == head + tail;
    TranslateAppend(parse, head, tail);
    TranslatePointwise(parse, tail);
    NoSystemText(tail);
    HeadOnly(parse, head, system);
  }

  /** The messages that are no system messages, in order. */
  function Kept(ms: seq<Message>): seq<Message> {
    if ms == [] then []
    else
      var last := ms[|ms| - 1];
      Kept(ms[..|ms| - 1]) + if last.role == "system" then [] else [last]
  }

  /** The arguments a tool_use carries: what they decode to, or an empty object. */
  predicate InputIs(parse: Parser, args: string, input: Json) {
    if args == "" || parse(args).None? || parse(args) == Some(JNull) then input == JObject(map[])
    else parse(args) == Some(input)
  }

  /** The block at `k` is the k-th call, counted after the text if there is one. */
  predicate UseIs(parse: Parser, m: Message, blocks: seq<ContentBlock>, j: nat)
    requires j < |m.toolCalls|
  {
    var k := (if m.content == "" then 0 else 1) + j;
    && k < |blocks| && blocks[k].ToolUse?
    && blocks[k].id == m.toolCalls[j].id && blocks[k].name == m.toolCalls[j].name
    && InputIs(parse, m.toolCalls[j].args, blocks[k].input)
  }

  /** What a message other than a system message becomes. */
  predicate BecomesWire(parse: Parser, m: Message, out: WireMessage) {
    if m.role == "tool" then out == ToolResult(m.toolCallId, m.content)
    else if m.role == "assistant" then
      && out.AssistantBlocks?
      && |out.blocks| == |m.toolCalls| + (if m.content == "" then 0 else 1)
      && (m.content != "" ==> out.blocks[0] == TextBlock(m.content))
      && forall j :: 0 <= j < |m.toolCalls| ==> UseIs(parse, m, out.blocks, j)
    else out == UserText(m.content)
  }

  lemma {:induction false} UsesAre(parse: Parser, calls: seq<ToolCall>)
    ensures |Uses(parse, calls)| == |calls|
    ensures forall j :: 0 <= j < |calls| ==>
      Uses(parse, calls)[j] == ToolUse(calls[j].id, calls[j].name, InputOf(parse, calls[j].args))
  {
    hide InputOf;
    if calls != [] {
      var front := calls[..|calls| - 1];
      UsesAre(parse, front);
      assert forall j :: 0 <= j < |front| ==> front[j] == calls[j];
    }
  }

  lemma {:induction false} OneBecomesWire(parse: Parser, m: Message)
    ensures BecomesWire(parse, m, TranslateOne(parse, m))
  {
    UsesAre(parse, m.toolCalls);
  }

  /**
   * The translation of every list, of whatever messages: each message that is no system message keeps its place and
   * becomes what its role says, with no empty text block.
   */
  lemma {:induction false} TranslateExactly(parse: Parser, ms: seq<Message>)
    ensures |Translate(parse, ms)| == |Kept(ms)|
    ensures forall k :: 0 <= k < |Kept(ms)| ==> BecomesWire(parse, Kept(ms)[k], Translate(parse, ms)[k])
  {
    hide BecomesWire, TranslateOne;
    if ms != [] {
      TranslateExactly(parse, ms[..|ms| - 1]);
      OneBecomesWire(parse, ms[|ms| - 1]);
    }
  }

  function UseIds(blocks: seq<ContentBlock>): seq<string> {
    if blocks == [] then []
    else
      var last := blocks[|blocks| - 1];
      UseIds(blocks[..|blocks| - 1]) + if last.ToolUse? then [last.id] else []
  }

  predicate ResultFor(w: WireMessage, id: string) {
    w.ToolResult? && w.toolUseId == id
  }

  /** `out` starts with an assistant message that has tool uses, followed by the result of each, in order. */
  predicate PairFirst(out: seq<WireMessage>) {
    && out != [] && out[0].AssistantBlocks? && out[0].blocks != []
    && var ids := UseIds(out[0].blocks);
       && 0 < |ids| < |out|
       && forall k :: 0 <= k < |ids| ==> ResultFor(out[1 + k], ids[k])
  }

  function AfterPair(out: seq<WireMessage>): (rest: seq<WireMessage>)
    requires PairFirst(out)
    ensures |rest| < |out|
  {
    out[1 + |UseIds(out[0].blocks)|..]
  }

  /** Every tool use is followed by its own result, in order, before the next assistant message; none is empty. */
  predicate Paired(out: seq<WireMessage>)
    decreases |out|
  {
    out == [] || (PairFirst(out) && Paired(AfterPair(out)))
  }

  lemma {:induction false} OneMoreUse(blocks: seq<ContentBlock>, b: ContentBlock)
    ensures UseIds(blocks + [b]) == UseIds(blocks) + if b.ToolUse? then [b.id] else []
  {
    assert (blocks + [b])[..|blocks|] == blocks;
  }

  lemma {:induction false} NoUseInText(content: string)
    ensures UseIds(TextFirst(content)) == []
  {
    if content != "" {
      assert TextFirst(content)[..0] == [];
    }
  }

  lemma {:induction false} UsesKeepIds(parse: Parser, content: string, calls: seq<ToolCall>)
    ensures var ids := UseIds(TextFirst(content) + Uses(parse, calls));
      |ids| == |calls| && forall k :: 0 <= k < |calls| ==> ids[k] == calls[k].id
  {
    hide InputOf, UseIds;
    var blocks := TextFirst(content) + Uses(parse, calls);
    if calls == [] {
      NoUseInText(content);
      assert blocks == TextFirst(content);
    } else {
      var front, c := calls[..|calls| - 1], calls[|calls| - 1];
      var before := TextFirst(content) + Uses(parse, front);
      UsesKeepIds(parse, content, front);
      OneMoreUse(before, ToolUse(c.id, c.name, InputOf(parse, c.args)));
      assert blocks == before + [ToolUse(c.id, c.name, InputOf(parse, c.args))];
    }
  }

  predicate TranslatedTo(parse: Parser, ms: seq<Message>, out: seq<WireMessage>) {
    |out| == |ms| && forall k :: 0 <= k < |ms| ==> out[k] == TranslateOne(parse, ms[k])
  }

  lemma NoIds()
    ensures UseIds([]) == []
  {
  }

  lemma {:induction false} FirstBlockPairs(parse: Parser, ms: seq<Message>, out: seq<WireMessage>)
    requires BlockFirst(ms) && TranslatedTo(parse, ms, out)
    ensures PairFirst(out) && TranslatedTo(parse, AfterBlock(ms), AfterPair(out))
  {
    hide InputOf, Uses, UseIds, TextFirst;
    var calls := ms[0].toolCalls;
    UsesKeepIds(parse, ms[0].content, calls);
    NoIds();
    assert out[0] == TranslateOne(parse, ms[0]);
    var ids := UseIds(out[0].blocks);
    forall k | 0 <= k < |ids| ensures ResultFor(out[1 + k], ids[k]) {
      assert ms[1..][k] == ms[1 + k] && Answers(ms[1..][k], calls[k]);
      assert out[1 + k] == TranslateOne(parse, ms[1 + k]);
    }
  }

  lemma {:induction false} BlocksPair(parse: Parser, ms: seq<Message>, out: seq<WireMessage>)
    requires Blocks(ms) && TranslatedTo(parse, ms, out)
    ensures Paired(out)
    decreases |ms|
  {
    hide BlockFirst, AfterBlock, PairFirst, AfterPair;
    if ms == [] {
      assert out == [];
    } else {
      FirstBlockPairs(parse, ms, out);
      hide TranslatedTo;
      BlocksPair(parse, AfterBlock(ms), AfterPair(out));
    }
  }

  /** Ids survive one to one, each result after its use, and no assistant message has an empty content list. */
  lemma {:induction false} TranslatePairsResults(parse: Parser, ms: seq<Message>, system: string, intent: string)
    requires Protocol(ms, system, intent)
    ensures var out := Translate(parse, ms);
      |out| >= 1 && out[0] == UserText(intent) && Paired(out[1..])
  {
    hide Blocks, Paired, Translate, Systems, InputOf, Uses;
    TranslateKeepsOrder(parse, ms, system, intent);
    var out := Translate(parse, ms);
    assert forall k :: 0 <= k < |out[1..]| ==> out[1..][k] == TranslateOne(parse, ms[2..][k]);
    BlocksPair(parse, ms[2..], out[1..]);
  }

  // ----- The way back -----

  /** JSON encoding of arguments. */
  type Renderer = Json -> string

  function TextIn(blocks: seq<ContentBlock>): string {
    if blocks != [] && blocks[0].TextBlock? then blocks[0].text else ""
  }

  function CallsIn(render: Renderer, blocks: seq<ContentBlock>): seq<ToolCall> {
    if blocks == [] then []
    else
      var last := blocks[|blocks| - 1];
      CallsIn(render, blocks[..|blocks| - 1]) +
      if last.ToolUse? then [FunctionCall(last.id, last.name, render(last.input))] else []
  }

  function BackOne(render: Renderer, w: WireMessage): Message {
    match w
    case UserText(content) => UserMessage(content)
    case ToolResult(id, content) => Message("tool", content, [], id, "")
    case AssistantBlocks(blocks) => AssistantMessage(TextIn(blocks), CallsIn(render, blocks))
  }

  function Back(render: Renderer, system: string, out: seq<WireMessage>): seq<Message> {
    [SystemMessage(system)] + seq(|out|, k requires 0 <= k < |out| => BackOne(render, out[k]))
  }

  function Recoded(parse: Parser, render: Renderer, calls: seq<ToolCall>): seq<ToolCall> {
    seq(|calls|, k requires 0 <= k < |calls| => calls[k].(args := render(InputOf(parse, calls[k].args))))
  }

  /** What is lost: the tool's name on its answers, and how exactly arguments were written. */
  function Canonical(parse: Parser, render: Renderer, m: Message): Message {
    m.(name := "", toolCalls := Recoded(parse, render, m.toolCalls))
  }

  lemma {:induction false} OneMoreCall(render: Renderer, blocks: seq<ContentBlock>, b: ContentBlock)
    ensures CallsIn(render, blocks + [b]) ==
            CallsIn(render, blocks) + if b.ToolUse? then [FunctionCall(b.id, b.name, render(b.input))] else []
  {
    assert (blocks + [b])[..|blocks|] == blocks;
  }

  lemma {:induction false} NoCallInText(render: Renderer, content: string)
    ensures CallsIn(render, TextFirst(content)) == []
  {
    if content != "" {
      assert TextFirst(content)[..0] == [];
    }
  }

  lemma {:induction false} CallsComeBack(parse: Parser, render: Renderer, content: string, calls: seq<ToolCall>)
    requires forall k :: 0 <= k < |calls| ==> calls[k].kind == "function"
    ensures CallsIn(render, TextFirst(content) + Uses(parse, calls)) == Recoded(parse, render, calls)
  {
    hide InputOf, CallsIn, TextFirst;
    if calls == [] {
      NoCallInText(render, content);
      assert TextFirst(content) + Uses(parse, calls) == TextFirst(content);
    } else {
      var front, c := calls[..|calls| - 1], calls[|calls| - 1];
      var before, use := TextFirst(content) + Uses(parse, front), ToolUse(c.id, c.name, InputOf(parse, c.args));
      CallsComeBack(parse, render, content, front);
      OneMoreCall(render, before, use);
      assert TextFirst(content) + Uses(parse, calls) == before + [use];
    }
  }

  lemma {:induction false} UsesHaveNoText(parse: Parser, calls: seq<ToolCall>)
    ensures forall k :: 0 <= k < |Uses(parse, calls)| ==> Uses(parse, calls)[k].ToolUse?
  {
    hide InputOf;
    if calls != [] {
      UsesHaveNoText(parse, calls[..|calls| - 1]);
    }
  }

  lemma {:induction false} NothingToRecode(parse: Parser, render: Renderer)
    ensures Recoded(parse, render, []) == []
  {
  }

  lemma {:induction false} OneComesBack(parse: Parser, render: Renderer, m: Message)
    requires Regular(m)
    ensures BackOne(render, TranslateOne(parse, m)) == Canonical(parse, render, m)
  {
    hide InputOf, Recoded;
    if FromAdapter(m) {
      CallsComeBack(parse, render, m.content, m.toolCalls);
      UsesHaveNoText(parse, m.toolCalls);
    } else {
      NothingToRecode(parse, render);
    }
  }

  /**
   * An encoder made for a decoder: what was decoded decodes again from its encoding, and so does the empty object.
   * No decoder accepts the empty text.
   */
  ghost predicate Encodes(parse: Parser, render: Renderer) {
    && parse("").None? && parse(render(EMPTY_OBJECT)) == Some(EMPTY_OBJECT)
    && forall s :: parse(s).Some? ==> parse(render(parse(s).value)) == parse(s)
  }

  /**
   * What becomes of the arguments of one call on the way there and back: what is sent is decoded again, and that is
   * what the arguments meant exactly when they decode to something other than null.
   */
  lemma {:induction false} ArgumentsSurviveExactlyWhen(parse: Parser, render: Renderer, args: string)
    requires Encodes(parse, render)
    ensures parse(render(InputOf(parse, args))) == Some(InputOf(parse, args))
    ensures parse(render(InputOf(parse, args))) == parse(args) <==> parse(args).Some? && parse(args) != Some(JNull)
  {
  }

  /** The same call, with arguments that decode to what the translation sent for it. */
  predicate SameCall(parse: Parser, before: ToolCall, after: ToolCall) {
    && after == before.(args := after.args)
    && parse(after.args) == Some(InputOf(parse, before.args))
  }

  /** The same message, but for the tool's name on an answer and the way arguments are written. */
  predicate SameMessage(parse: Parser, before: Message, after: Message) {
    && after == before.(name := "", toolCalls := after.toolCalls)
    && |after.toolCalls| == |before.toolCalls|
    && forall j :: 0 <= j < |before.toolCalls| ==> SameCall(parse, before.toolCalls[j], after.toolCalls[j])
  }

  lemma {:induction false} CanonicalIsSame(parse: Parser, render: Renderer, m: Message)
    requires Encodes(parse, render)
    ensures SameMessage(parse, m, Canonical(parse, render, m))
  {
    hide InputOf, Encodes;
    forall j | 0 <= j < |m.toolCalls|
      ensures SameCall(parse, m.toolCalls[j], Canonical(parse, render, m).toolCalls[j])
    {
      ArgumentsSurviveExactlyWhen(parse, render, m.toolCalls[j].args);
    }
  }

  /**
   * The translation loses nothing else: from the Anthropic pair the whole conversation comes back, up to the tool
   * name on answers and the re-encoding of arguments; and with an encoder made for the decoder the arguments decode
   * to what was sent for them.
   */
  lemma {:induction false} TranslateInvertible(parse: Parser, render: Renderer, ms: seq<Message>, system: string,
                                               intent: string)
    requires Protocol(ms, system, intent)
    ensures var back := Back(render, Join(Systems(ms), "\n\n"), Translate(parse, ms));
      && |back| == |ms| && (forall k :: 0 <= k < |ms| ==> back[k] == Canonical(parse, render, ms[k]))
      && (Encodes(parse, render) ==> forall k :: 0 <= k < |ms| ==> SameMessage(parse, ms[k], back[k]))
  {
    hide Blocks, Translate, Systems, TranslateOne, BackOne, Encodes, SameMessage;
    TranslateKeepsOrder(parse, ms, system, intent);
    NothingToRecode(parse, render);
    var out := Translate(parse, ms);
    var back := Back(render, system, out);
    forall k | 0 <= k < |ms| ensures back[k] == Canonical(parse, render, ms[k]) {
      if k > 0 {
        if k > 1 {
          BlocksAreRegular(ms[2..], k - 2);
          assert ms[2..][k - 2] == ms[k];
        }
        assert back[k] == BackOne(render, out[k - 1]);
        OneComesBack(parse, render, ms[k]);
      }
    }
    if Encodes(parse, render) {
      forall k | 0 <= k < |ms| ensures SameMessage(parse, ms[k], back[k]) {
        CanonicalIsSame(parse, render, ms[k]);
      }
    }
  }
}
