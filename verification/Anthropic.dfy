/** The native Anthropic stream: content blocks by index, folded into one assistant message. */
module Anthropic {
  import opened Text
  import opened Message
  import opened Sse

  datatype Delta = TextDelta(text: string) | InputJsonDelta(partialJson: string) | OtherDelta

  datatype Event =
    | MessageStart(model: string, inputTokens: int)
    | BlockStart(index: int, kind: string, id: string, name: string)
    | BlockDelta(index: int, delta: Delta)
    | MessageDelta(outputTokens: int)
    | MessageStop
    | OtherEvent

  /** JSON decoding of a frame; `None` for frames that do not decode. */
  type Decoder = string -> Option<Event>

  datatype Block = Block(kind: string, id: string, name: string, json: string)

  /** The variables the stream callback updates; `emitted` records the calls of `emit`. */
  datatype Fold = Fold(
    blocks: map<int, Block>,
    order: seq<int>,
    content: string,
    emitted: seq<string>,
    usage: Usage,
    model: string)

  const EMPTY := Fold(map[], [], "", [], Usage(0, 0, 0), "")
  const TOOL_USE := "tool_use"

  /** Every index in `order` has its block, and what was emitted is what was collected. */
  predicate Sound(f: Fold) {
    Elements(f.order) == f.blocks.Keys && Concat(f.emitted) == f.content
  }

  /** The block a delta goes to, made on the spot when its start was never seen. */
  function Touch(f: Fold, index: int): Fold {
    if index in f.blocks then f
    else f.(blocks := f.blocks[index := Block("", "", "", "")], order := f.order + [index])
  }

  function AddEvent(f: Fold, ev: Event): Fold {
    match ev
    case MessageStart(model, input) =>
      f.(model := if model != "" then model else f.model,
         usage := if input > 0 then f.usage.(prompt := input) else f.usage)
    case BlockStart(index, kind, id, name) =>
      f.(blocks := f.blocks[index := Block(kind, id, name, "")], order := f.order + [index])
    case BlockDelta(index, delta) =>
      var g := Touch(f, index);
      match delta {
        case TextDelta(text) => g.(content := g.content + text, emitted := g.emitted + [text])
        case InputJsonDelta(partial) =>
          var b := g.blocks[index];
          g.(blocks := g.blocks[index := b.(json := b.json + partial)])
        case OtherDelta => g
      }
    case MessageDelta(output) => f.(usage := if output > 0 then f.usage.(completion := output) else f.usage)
    case MessageStop => f
    case OtherEvent => f
  }

  function OnData(decode: Decoder): (Fold, string) -> Verdict<Fold> {
    (f: Fold, data: string) =>
      match decode(data)
      case None => Verdict(f, false)
      case Some(ev) => Verdict(AddEvent(f, ev), ev.MessageStop?)
  }

  function OrEmptyObject(json: string): string {
    if TrimSpace(json) == "" then "{}" else json
  }

  /** The tool calls of the blocks in `order`; blocks of other kinds are dropped. */
  function CallsInOrder(f: Fold, order: seq<int>): seq<ToolCall>
    requires forall k :: 0 <= k < |order| ==> order[k] in f.blocks
  {
    if order == [] then []
    else
      var b := f.blocks[order[|order| - 1]];
      CallsInOrder(f, order[..|order| - 1]) +
      if b.kind == TOOL_USE then [FunctionCall(b.id, b.name, OrEmptyObject(b.json))] else []
  }

  function Totalled(u: Usage): Usage {
    if u.total == 0 && (u.prompt > 0 || u.completion > 0) then u.(total := u.prompt + u.completion) else u
  }

  function Finish(f: Fold): ChatResult
    requires Sound(f)
  {
    assert forall k :: 0 <= k < |f.order| ==> f.order[k] in Elements(f.order);
    ChatResult(AssistantMessage(f.content, CallsInOrder(f, f.order)), Totalled(f.usage), f.model)
  }

  // ----- The callback and the adapter, step by step -----

  /** The stream callback of `anthropicModel.Chat`. */
  method HandleData(decode: Decoder, f: Fold, data: string) returns (v: Verdict<Fold>)
    ensures v == OnData(decode)(f, data)
  {
    var decoded := decode(data);
    if decoded.None? {
      return Verdict(f, false);
    }
    var ev := decoded.value;
    var blocks, order, content, emitted, usage, model := f.blocks, f.order, f.content, f.emitted, f.usage, f.model;
    match ev {
      case MessageStart(name, input) =>
        if name != "" {
          model := name;
        }
        if input > 0 {
          usage := usage.(prompt := input);
        }
      case BlockStart(index, kind, id, name) =>
        blocks := blocks[index := Block(kind, id, name, "")];
        order := order + [index];
      case BlockDelta(index, delta) =>
        if index !in blocks {
          blocks := blocks[index := Block("", "", "", "")];
          order := order + [index];
        }
        match delta {
          case TextDelta(text) =>
            content := content + text;
            emitted := emitted + [text];
          case InputJsonDelta(partial) =>
            var b := blocks[index];
            blocks := blocks[index := b.(json := b.json + partial)];
          case OtherDelta =>
        }
      case MessageDelta(output) =>
        if output > 0 {
          usage := usage.(completion := output);
        }
      case MessageStop =>
        return Verdict(f, true);
      case OtherEvent =>
    }
    return Verdict(Fold(blocks, order, content, emitted, usage, model), false);
  }

  datatype Streamed = Streamed(result: Result<ChatResult, string>, emitted: seq<string>)

  lemma {:induction false} TouchSound(f: Fold, index: int)
    requires Sound(f)
    ensures Sound(Touch(f, index)) && index in Touch(f, index).blocks
  {
    ElementsAppend(f.order, index);
  }

  lemma {:induction false} EventSound(f: Fold, ev: Event)
    requires Sound(f)
    ensures Sound(AddEvent(f, ev))
  {
    match ev
    case BlockStart(index, _, _, _) => ElementsAppend(f.order, index);
    case BlockDelta(index, delta) =>
      TouchSound(f, index);
      var g := Touch(f, index);
      if delta.TextDelta? {
        assert (g.emitted + [delta.text])[..|g.emitted|] == g.emitted;
      } else if delta.InputJsonDelta? {
        assert AddEvent(f, ev).blocks.Keys == g.blocks.Keys;
      }
    case _ =>
  }

  /** For every stream at all: each entry of `order` has a block, and the emitted deltas concatenate to the content. */
  lemma {:induction false} StreamSound(decode: Decoder, body: Body)
    ensures Sound(Scan(body, EMPTY, OnData(decode)).state)
  {
    assert Sound(EMPTY);
    forall f: Fold, d: string | Sound(f) ensures Sound(OnData(decode)(f, d).state) {
      if decode(d).Some? {
        EventSound(f, decode(d).value);
      }
    }
    ScanKeeps(Lines(body.text), body.fault, EMPTY, OnData(decode), f => Sound(f));
  }

  function Stream(decode: Decoder, body: Body): Streamed {
    var scanned := Scan(body, EMPTY, OnData(decode));
    StreamSound(decode, body);
    match scanned.error
    case Some(e) => Streamed(Err(e), scanned.state.emitted)
    case None => Streamed(Ok(Finish(scanned.state)), scanned.state.emitted)
  }

  /** The final loop of `anthropicModel.Chat`. */
  method CollectCalls(f: Fold) returns (toolCalls: seq<ToolCall>)
    requires forall k :: 0 <= k < |f.order| ==> f.order[k] in f.blocks
    ensures toolCalls == CallsInOrder(f, f.order)
  {
    hide TrimSpace;
    toolCalls := [];
    for k := 0 to |f.order|
      invariant toolCalls == CallsInOrder(f, f.order[..k])
    {
      assert f.order[..k + 1][..k] == f.order[..k];
      var b := f.blocks[f.order[k]];
      if b.kind != TOOL_USE {
        continue;
      }
      var args := b.json;
      if TrimSpace(args) == "" {
        args := "{}";
      }
      toolCalls := toolCalls + [FunctionCall(b.id, b.name, args)];
    }
    assert f.order[..|f.order|] == f.order;
  }

  /** The part of `anthropicModel.Chat` after a 2xx answer. */
  method ReadStream(decode: Decoder, body: Body) returns (r: Streamed)
    ensures r == Stream(decode, body)
  {
    hide TrimSpace, AddEvent, ScanLines, Lines;
    var f, error := ScanSse(body, EMPTY, OnData(decode));
    StreamSound(decode, body);
    if error.Some? {
      return Streamed(Err(error.value), f.emitted);
    }
    assert forall k :: 0 <= k < |f.order| ==> f.order[k] in Elements(f.order);
    var toolCalls := CollectCalls(f);
    var usage := f.usage;
    if usage.total == 0 && (usage.prompt > 0 || usage.completion > 0) {
      usage := usage.(total := usage.prompt + usage.completion);
    }
    return Streamed(Ok(ChatResult(AssistantMessage(f.content, toolCalls), usage, f.model)), f.emitted);
  }

  // ----- Reassembly of content blocks -----

  function AddEvents(f: Fold, events: seq<Event>): Fold {
    if events == [] then f else AddEvent(AddEvents(f, events[..|events| - 1]), events[|events| - 1])
  }

  predicate Names(ev: Event, i: int) {
    (ev.BlockStart? || ev.BlockDelta?) && ev.index == i
  }

  predicate Touched(events: seq<Event>, i: int) {
    exists k :: 0 <= k < |events| && Names(events[k], i)
  }

  /** No block is started under an index the stream has used before. */
  predicate NeverRestarts(events: seq<Event>) {
    forall k :: 0 <= k < |events| && events[k].BlockStart? ==> !Touched(events[..k], events[k].index)
  }

  function JsonIn(ev: Event, i: int): string {
    if ev.BlockDelta? && ev.index == i && ev.delta.InputJsonDelta? then ev.delta.partialJson else ""
  }

  /** All the partial JSON of one block. */
  function JsonOf(events: seq<Event>, i: int): string {
    if events == [] then "" else JsonOf(events[..|events| - 1], i) + JsonIn(events[|events| - 1], i)
  }

  /** All the text, of whichever block. */
  function TextOf(events: seq<Event>): string {
    if events == [] then ""
    else
      var last := events[|events| - 1];
      TextOf(events[..|events| - 1]) + if last.BlockDelta? && last.delta.TextDelta? then last.delta.text else ""
  }

  function Starts(events: seq<Event>): (starts: seq<Event>)
    ensures forall k :: 0 <= k < |starts| ==> starts[k].BlockStart?
  {
    if events == [] then []
    else
      var last := events[|events| - 1];
      Starts(events[..|events| - 1]) + if last.BlockStart? then [last] else []
  }

  /** The tool calls a stream means: its tool_use starts in order, each with all of its JSON. */
  function Meant(starts: seq<Event>, events: seq<Event>): seq<ToolCall>
    requires forall k :: 0 <= k < |starts| ==> starts[k].BlockStart?
  {
    if starts == [] then []
    else
      var s := starts[|starts| - 1];
      Meant(starts[..|starts| - 1], events) +
      if s.kind == TOOL_USE then [FunctionCall(s.id, s.name, OrEmptyObject(JsonOf(events, s.index)))] else []
  }

  lemma {:induction false} FrontOf(events: seq<Event>)
    requires events != []
    ensures var front := events[..|events| - 1];
      && (NeverRestarts(events) ==> NeverRestarts(front))
      && forall i :: Touched(events, i) <==> Touched(front, i) || Names(events[|events| - 1], i)
  {
    var front := events[..|events| - 1];
    assert forall k :: 0 <= k < |front| ==> front[k] == events[k] && front[..k] == events[..k];
    forall i ensures Touched(events, i) <==> Touched(front, i) || Names(events[|events| - 1], i) {
      if Touched(front, i) {
        var k :| 0 <= k < |front| && Names(front[k], i);
        assert Names(events[k], i);
      }
    }
  }

  lemma NothingSound()
    ensures Sound(EMPTY)
  {
  }

  lemma {:induction false} EventsSound(events: seq<Event>)
    ensures Sound(AddEvents(EMPTY, events))
  {
    hide AddEvent, Sound;
    if events != [] {
      EventsSound(events[..|events| - 1]);
      EventSound(AddEvents(EMPTY, events[..|events| - 1]), events[|events| - 1]);
    } else {
      assert Sound(EMPTY) by { NothingSound(); }
    }
  }

  lemma {:induction false} BlocksAreTouched(events: seq<Event>, i: int)
    ensures i in AddEvents(EMPTY, events).blocks <==> Touched(events, i)
  {
    hide NeverRestarts;
    if events != [] {
      BlocksAreTouched(events[..|events| - 1], i);
      FrontOf(events);
      hide Touched;
    }
  }

  lemma NothingRestarts()
    ensures NeverRestarts([]) && Distinct(EMPTY.order)
  {
  }

  lemma {:induction false} RestartsStep(events: seq<Event>)
    requires events != []
    ensures var front, last := events[..|events| - 1], events[|events| - 1];
      NeverRestarts(events) <==> NeverRestarts(front) && (last.BlockStart? ==> !Touched(front, last.index))
  {
    hide Touched;
    var n := |events| - 1;
    assert forall k :: 0 <= k < n ==> events[..n][k] == events[k] && events[..n][..k] == events[..k];
  }

  lemma {:induction false} GrowsDistinct(order: seq<int>, i: int)
    ensures Distinct(order + [i]) <==> Distinct(order) && i !in order
  {
    var longer := order + [i];
    if Distinct(longer) {
      assert forall a, b :: 0 <= a < b < |order| ==> longer[a] == order[a] && longer[b] == order[b];
      assert forall a :: 0 <= a < |order| ==> order[a] == longer[a] != longer[|order|];
    }
  }

  /** `order` is duplicate-free exactly for the streams that never start an index they have used before. */
  lemma {:induction false} OrderDistinctExactlyWhen(events: seq<Event>)
    ensures Distinct(AddEvents(EMPTY, events).order) <==> NeverRestarts(events)
  {
    hide Distinct, NeverRestarts, Touched;
    if events == [] {
      NothingRestarts();
    } else {
      var n := |events| - 1;
      var front, last := events[..n], events[n];
      var f := AddEvents(EMPTY, front);
      OrderDistinctExactlyWhen(front);
      RestartsStep(events);
      if last.BlockStart? || last.BlockDelta? {
        BlocksAreTouched(front, last.index);
        EventsSound(front);
        FoundInElements(f.order, last.index);
        GrowsDistinct(f.order, last.index);
      }
    }
  }

  // ----- Restarted indices -----

  predicate StartsAgainAt(events: seq<Event>, i: int, k: nat)
    requires k < |events|
  {
    events[k].BlockStart? && events[k].index == i && Touched(events[..k], i)
  }

  /** The index is started at a point where the stream has used it before. */
  predicate Restarts(events: seq<Event>, i: int) {
    exists k :: 0 <= k < |events| && StartsAgainAt(events, i, k)
  }

  lemma {:induction false} RestartsGrow(events: seq<Event>, i: int)
    requires events != []
    ensures var n := |events| - 1;
      Restarts(events, i) <==> Restarts(events[..n], i) || StartsAgainAt(events, i, n)
  {
    hide Touched;
    var n := |events| - 1;
    var front := events[..n];
    assert forall k :: 0 <= k < n ==> front[k] == events[k] && front[..k] == events[..k];
    if Restarts(front, i) {
      var k :| 0 <= k < n && StartsAgainAt(front, i, k);
      assert StartsAgainAt(events, i, k);
    }
    if Restarts(events, i) {
      var k :| 0 <= k < |events| && StartsAgainAt(events, i, k);
      assert k < n ==> StartsAgainAt(front, i, k);
    }
  }

  lemma {:induction false} OrderStep(f: Fold, ev: Event, i: int)
    ensures var grows := Names(ev, i) && (ev.BlockStart? || i !in f.blocks);
      multiset(AddEvent(f, ev).order)[i] == multiset(f.order)[i] + if grows then 1 else 0
  {
  }

  /** An index stands in `order` once it is used, and twice exactly when it restarts. */
  lemma {:induction false} OrderCounts(events: seq<Event>, i: int)
    ensures var count := multiset(AddEvents(EMPTY, events).order)[i];
      (count >= 1 <==> Touched(events, i)) && (count >= 2 <==> Restarts(events, i))
  {
    if events != [] {
      var n := |events| - 1;
      OrderCounts(events[..n], i);
      BlocksAreTouched(events[..n], i);
      FrontOf(events);
      RestartsGrow(events, i);
      hide Touched, Restarts, NeverRestarts;
      OrderStep(AddEvents(EMPTY, events[..n]), events[n], i);
    }
  }

  /** `p` is where index `i` is started for the last time. */
  predicate LastStart(events: seq<Event>, i: int, p: nat) {
    && p < |events| && events[p].BlockStart? && events[p].index == i
    && forall k :: p < k < |events| ==> !(events[k].BlockStart? && events[k].index == i)
  }

  lemma {:induction false} NoJson(i: int)
    ensures JsonOf([], i) == ""
  {
  }

  /** What one event does to one block. */
  lemma {:induction false} BlockStep(f: Fold, ev: Event, i: int)
    ensures var g := AddEvent(f, ev);
      && (ev.BlockStart? && ev.index == i ==> i in g.blocks && g.blocks[i] == Block(ev.kind, ev.id, ev.name, ""))
      && (!(ev.BlockStart? && ev.index == i) && i in f.blocks ==>
            i in g.blocks && g.blocks[i] == f.blocks[i].(json := f.blocks[i].json + JsonIn(ev, i)))
  {
  }

  lemma {:induction false} LastStartShrinks(events: seq<Event>, i: int, p: nat)
    requires LastStart(events, i, p) && p < |events| - 1
    ensures LastStart(events[..|events| - 1], i, p)
    ensures !(events[|events| - 1].BlockStart? && events[|events| - 1].index == i)
  {
  }

  lemma {:induction false} OneMoreJson(events: seq<Event>, ev: Event, i: int)
    ensures JsonOf(events + [ev], i) == JsonOf(events, i) + JsonIn(ev, i)
  {
    assert (events + [ev])[..|events|] == events;
  }

  /** For every stream: a block is its last start, with the partial JSON that came after it and none from before. */
  lemma {:induction false} BlockIsLastStart(events: seq<Event>, i: int, p: nat)
    requires LastStart(events, i, p)
    ensures var f := AddEvents(EMPTY, events); var s := events[p];
      i in f.blocks && f.blocks[i] == Block(s.kind, s.id, s.name, JsonOf(events[p + 1..], i))
    decreases |events|
  {
    hide AddEvent, JsonOf;
    var n := |events| - 1;
    var front := events[..n];
    BlockStep(AddEvents(EMPTY, front), events[n], i);
    if p == n {
      assert events[p + 1..] == [];
      NoJson(i);
    } else {
      var after := events[p + 1..n];
      LastStartShrinks(events, i, p);
      assert front[p] == events[p] && front[p + 1..] == after;
      hide LastStart;
      BlockIsLastStart(front, i, p);
      assert events[p + 1..] == after + [events[n]];
      OneMoreJson(after, events[n], i);
    }
  }

  lemma {:induction false} CallsRepeat(f: Fold, order: seq<int>, i: int)
    requires forall k :: 0 <= k < |order| ==> order[k] in f.blocks
    requires i in f.blocks && f.blocks[i].kind == TOOL_USE
    ensures var b := f.blocks[i];
      multiset(CallsInOrder(f, order))[FunctionCall(b.id, b.name, OrEmptyObject(b.json))] >= multiset(order)[i]
  {
    hide OrEmptyObject;
    if order != [] {
      var n := |order| - 1;
      assert order == order[..n] + [order[n]];
      CallsRepeat(f, order[..n], i);
    }
  }

  lemma {:induction false} LastStartIsStart(events: seq<Event>, i: int, p: nat)
    requires LastStart(events, i, p)
    ensures p < |events| && events[p].BlockStart? && events[p].index == i
  {
  }

  /**
   * Restarting an index of a tool call is the failing case. In every stream whose index `i` restarts and is last
   * started as a tool_use, the call of that last start comes back at least twice, with the arguments that followed
   * the last start only.
   */
  lemma {:induction false} RestartDuplicatesCall(events: seq<Event>, i: int, p: nat)
    requires Restarts(events, i) && LastStart(events, i, p) && events[p].kind == TOOL_USE
    ensures var f := AddEvents(EMPTY, events); var s := events[p];
      && Sound(f)
      && var call := FunctionCall(s.id, s.name, OrEmptyObject(JsonOf(events[p + 1..], i)));
         multiset(Finish(f).message.toolCalls)[call] >= 2
  {
    hide OrEmptyObject, JsonOf, Restarts, LastStart;
    var f := AddEvents(EMPTY, events);
    EventsSound(events);
    OrderCounts(events, i);
    assert p < |events| && events[p].BlockStart? by { LastStartIsStart(events, i, p); }
    BlockIsLastStart(events, i, p);
    assert forall k :: 0 <= k < |f.order| ==> f.order[k] in Elements(f.order);
    CallsRepeat(f, f.order, i);
  }

  // ----- Reassembly -----

  function BlockMeant(start: Event, events: seq<Event>): Block
    requires start.BlockStart?
  {
    Block(start.kind, start.id, start.name, JsonOf(events, start.index))
  }

  lemma {:induction false} NoJsonUntouched(events: seq<Event>, i: int)
    requires !Touched(events, i)
    ensures JsonOf(events, i) == ""
  {
    if events != [] {
      FrontOf(events);
      NoJsonUntouched(events[..|events| - 1], i);
    }
  }

  /** Without restarts, block `i` is the start of `i` with all of its JSON. */
  lemma {:induction false} BlockIs(events: seq<Event>, k: nat)
    requires NeverRestarts(events) && k < |events| && events[k].BlockStart?
    ensures var f := AddEvents(EMPTY, events); var s := events[k];
      s.index in f.blocks && f.blocks[s.index] == BlockMeant(s, events)
    decreases |events|
  {
    var n := |events| - 1;
    var front, last, i := events[..n], events[n], events[k].index;
    FrontOf(events);
    RestartsStep(events);
    if k < n {
      assert front[k] == events[k];
      assert Names(front[k], i);
      assert Touched(front, i);
      hide NeverRestarts, Touched;
      BlockIs(front, k);
    } else {
      NoJsonUntouched(front, i);
    }
  }

  /** A block first used by a delta, never started later, keeps the empty kind and so yields no call. */
  lemma {:induction false} OrphanHasNoKind(events: seq<Event>, k: nat)
    requires NeverRestarts(events) && k < |events| && events[k].BlockDelta? && !Touched(events[..k], events[k].index)
    ensures var f := AddEvents(EMPTY, events); var i := events[k].index;
      i in f.blocks && f.blocks[i].kind == ""
    decreases |events|
  {
    var n := |events| - 1;
    var front, i := events[..n], events[k].index;
    FrontOf(events);
    RestartsStep(events);
    if k < n {
      assert front[k] == events[k] && front[..k] == events[..k];
      assert Names(front[k], i);
      assert Touched(front, i);
      hide NeverRestarts, Touched;
      OrphanHasNoKind(front, k);
    } else {
      BlocksAreTouched(front, i);
    }
  }

  /** In fold `f` the calls of these indices are those these starts mean. */
  predicate Settled(f: Fold, order: seq<int>, starts: seq<Event>, events: seq<Event>) {
    && (forall k :: 0 <= k < |order| ==> order[k] in f.blocks)
    && (forall k :: 0 <= k < |starts| ==> starts[k].BlockStart?)
    && CallsInOrder(f, order) == Meant(starts, events)
  }

  lemma {:induction false} StartSettles(f: Fold, order: seq<int>, starts: seq<Event>, events: seq<Event>, ev: Event)
    requires Settled(f, order, starts, events) && ev.BlockStart?
    requires ev.index in f.blocks && f.blocks[ev.index] == BlockMeant(ev, events)
    ensures Settled(f, order + [ev.index], starts + [ev], events)
  {
    hide OrEmptyObject, JsonOf;
    assert (order + [ev.index])[..|order|] == order;
    assert (starts + [ev])[..|starts|] == starts;
  }

  lemma {:induction false} OrphanSettles(f: Fold, order: seq<int>, starts: seq<Event>, events: seq<Event>, i: int)
    requires Settled(f, order, starts, events) && i in f.blocks && f.blocks[i].kind == ""
    ensures Settled(f, order + [i], starts, events)
  {
    hide OrEmptyObject, Meant;
    assert (order + [i])[..|order|] == order;
  }

  /** The event at `n` of a stream, as the fold and `Starts` take it. */
  lemma {:induction false} OneEventOn(events: seq<Event>, n: nat)
    requires n < |events|
    ensures var before, ev := events[..n], events[n];
      var order := AddEvents(EMPTY, before).order;
      && AddEvents(EMPTY, events[..n + 1]).order ==
         (if ev.BlockStart? || (ev.BlockDelta? && !Touched(before, ev.index)) then order + [ev.index] else order)
      && Starts(events[..n + 1]) == Starts(before) + if ev.BlockStart? then [ev] else []
  {
    var next := events[..n + 1];
    assert next[..n] == events[..n] && next[n] == events[n];
    if events[n].BlockDelta? {
      BlocksAreTouched(events[..n], events[n].index);
    }
  }

  lemma {:induction false} NothingSettles(f: Fold, events: seq<Event>)
    ensures AddEvents(EMPTY, []).order == [] && Starts([]) == [] && Settled(f, [], [], events)
  {
  }

  /** The calls of the blocks a prefix of the stream has used are those its starts mean. */
  lemma {:induction false} PrefixSettles(events: seq<Event>, n: nat)
    requires NeverRestarts(events) && n <= |events|
    ensures Settled(AddEvents(EMPTY, events), AddEvents(EMPTY, events[..n]).order, Starts(events[..n]), events)
  {
    hide NeverRestarts, Touched, AddEvents, Starts, Settled, BlockMeant;
    var f := AddEvents(EMPTY, events);
    if n == 0 {
      NothingSettles(f, events);
      assert events[..0] == [];
    } else {
      var before, ev := events[..n - 1], events[n - 1];
      var order, starts := AddEvents(EMPTY, before).order, Starts(before);
      PrefixSettles(events, n - 1);
      OneEventOn(events, n - 1);
      if ev.BlockStart? {
        BlockIs(events, n - 1);
        StartSettles(f, order, starts, events, ev);
      } else {
        assert Starts(events[..n]) == starts;
        if ev.BlockDelta? && !Touched(before, ev.index) {
          OrphanHasNoKind(events, n - 1);
          OrphanSettles(f, order, starts, events, ev.index);
        }
      }
    }
  }

  lemma {:induction false} AllText(events: seq<Event>)
    ensures AddEvents(EMPTY, events).content == TextOf(events)
  {
    if events != [] {
      AllText(events[..|events| - 1]);
    }
  }

  /**
   * Block reassembly. However the blocks of a stream interleave, if no index is started after it was used, the
   * result holds exactly the tool_use blocks, in the order they started, each with all of its partial JSON or `{}`
   * where that is blank, beside all of the text. Deltas of indices that never start yield no call.
   */
  lemma {:induction false} BlockReassembly(events: seq<Event>)
    requires NeverRestarts(events)
    ensures var f := AddEvents(EMPTY, events);
      Sound(f) && Finish(f).message == AssistantMessage(TextOf(events), Meant(Starts(events), events))
  {
    hide NeverRestarts, Meant, Starts, TextOf;
    EventsSound(events);
    AllText(events);
    PrefixSettles(events, |events|);
    assert events[..|events|] == events;
  }

  // ----- The calls of every stream -----

  /** The event at `n` makes a slot in `order`: a start, or the first event of an index that is not started. */
  predicate MakesSlot(events: seq<Event>, n: nat)
    requires n < |events|
  {
    events[n].BlockStart? || (events[n].BlockDelta? && !Touched(events[..n], events[n].index))
  }

  /** The indices of those events, in the order they came. */
  function Slots(events: seq<Event>): seq<int> {
    if events == [] then []
    else
      var n := |events| - 1;
      Slots(events[..n]) + if MakesSlot(events, n) then [events[n].index] else []
  }

  /** The last start of index `i`, if it is ever started. */
  function LastStartOf(events: seq<Event>, i: int): (p: Option<nat>)
    ensures p.Some? ==> LastStart(events, i, p.value)
    ensures p.None? ==> forall k :: 0 <= k < |events| ==> !(events[k].BlockStart? && events[k].index == i)
  {
    if events == [] then None
    else
      var n := |events| - 1;
      if events[n].BlockStart? && events[n].index == i then Some(n) else LastStartOf(events[..n], i)
  }

  /** What one index means in the end: the call of its last start, if that is a tool_use. */
  function CallMeant(events: seq<Event>, i: int): seq<ToolCall> {
    match LastStartOf(events, i)
    case None => []
    case Some(p) =>
      var s, json := events[p], JsonOf(events[p + 1..], i);
      if s.kind == "tool_use" then [ToolCall(s.id, "function", s.name, if TrimSpace(json) == "" then "{}" else json)]
      else []
  }

  function CallsMeant(events: seq<Event>, order: seq<int>): seq<ToolCall> {
    if order == [] then []
    else CallsMeant(events, order[..|order| - 1]) + CallMeant(events, order[|order| - 1])
  }

  lemma {:induction false} OrderIsSlots(events: seq<Event>)
    ensures AddEvents(EMPTY, events).order == Slots(events)
  {
    hide Touched;
    if events != [] {
      var n := |events| - 1;
      OrderIsSlots(events[..n]);
      OneEventOn(events, n);
      assert events[..n + 1] == events;
    }
  }

  /** A block that is never started keeps the empty kind. */
  lemma {:induction false} NeverStartedHasNoKind(events: seq<Event>, i: int)
    requires LastStartOf(events, i).None?
    requires i in AddEvents(EMPTY, events).blocks
    ensures AddEvents(EMPTY, events).blocks[i].kind == ""
  {
    if events != [] {
      var n := |events| - 1;
      var f := AddEvents(EMPTY, events[..n]);
      assert !(events[n].BlockStart? && events[n].index == i);
      if i in f.blocks {
        NeverStartedHasNoKind(events[..n], i);
      }
    }
  }

  /** The final loop takes from one block what its index means. */
  lemma {:induction false} BlockGivesCall(events: seq<Event>, i: int)
    requires i in AddEvents(EMPTY, events).blocks
    ensures var b := AddEvents(EMPTY, events).blocks[i];
      CallMeant(events, i) == if b.kind == TOOL_USE then [FunctionCall(b.id, b.name, OrEmptyObject(b.json))] else []
  {
    hide AddEvents, JsonOf, LastStart, TrimSpace;
    match LastStartOf(events, i)
    case None => NeverStartedHasNoKind(events, i);
    case Some(p) =>
      LastStartIsStart(events, i, p);
      BlockIsLastStart(events, i, p);
  }

  lemma {:induction false} CallsAreMeant(events: seq<Event>, order: seq<int>)
    requires forall k :: 0 <= k < |order| ==> order[k] in AddEvents(EMPTY, events).blocks
    ensures CallsInOrder(AddEvents(EMPTY, events), order) == CallsMeant(events, order)
  {
    hide AddEvents, CallMeant, OrEmptyObject;
    if order != [] {
      CallsAreMeant(events, order[..|order| - 1]);
      BlockGivesCall(events, order[|order| - 1]);
    }
  }

  /**
   * The message of every stream, restarts and orphans included: all of the text, and along the starts and the orphans'
   * first deltas, in their order, the call of the last start of each index, with the partial JSON that followed it.
   */
  lemma {:induction false} EveryStreamsMessage(events: seq<Event>)
    ensures var f := AddEvents(EMPTY, events);
      && Sound(f) && f.order == Slots(events)
      && Finish(f).message == AssistantMessage(TextOf(events), CallsMeant(events, Slots(events)))
  {
    hide AddEvents, TextOf, CallsMeant, CallsInOrder, Slots;
    var f := AddEvents(EMPTY, events);
    EventsSound(events);
    AllText(events);
    OrderIsSlots(events);
    assert forall k :: 0 <= k < |f.order| ==> f.order[k] in Elements(f.order);
    CallsAreMeant(events, f.order);
  }

  // ----- End to end -----

  function Encoded(encode: Event -> string, events: seq<Event>): seq<string> {
    seq(|events|, k requires 0 <= k < |events| => encode(events[k]))
  }

  lemma {:induction false} FeedEvents(decode: Decoder, encode: Event -> string, events: seq<Event>, i: nat)
    requires i <= |events|
    requires forall e :: e in events ==> !e.MessageStop? && decode(encode(e)) == Some(e)
    ensures Feed(Encoded(encode, events)[i..], AddEvents(EMPTY, events[..i]), OnData(decode)) ==
            Verdict(AddEvents(EMPTY, events), false)
    decreases |events| - i
  {
    hide AddEvent;
    var payloads := Encoded(encode, events);
    if i == |events| {
      assert events[..i] == events;
    } else {
      assert events[..i + 1][..i] == events[..i];
      assert payloads[i..][0] == encode(events[i]) && payloads[i..][1..] == payloads[i + 1..];
      assert events[i] in events;
      FeedEvents(decode, encode, events, i + 1);
    }
  }

  lemma {:induction false} StopStops(decode: Decoder, stop: string, f: Fold, after: string, fault: Option<string>)
    requires Framable(stop) && decode(stop) == Some(MessageStop)
    ensures Scan(Body(Frame(stop) + after, fault), f, OnData(decode)) == Scanned(f, None)
  {
    var payloads := [stop];
    assert Print(payloads) == Frame(stop) by { assert payloads[1..] == []; }
    FramesRoundTrip(payloads, after, fault, f, OnData(decode));
  }

  /**
   * End to end: a body that frames such a stream, then message_stop, then anything at all, is read back as one
   * message with the whole text and exactly the tool calls meant.
   */
  lemma {:induction false} StreamRoundTrip(decode: Decoder, encode: Event -> string, events: seq<Event>,
                                           after: string, fault: Option<string>)
    requires forall e :: e in events ==> Framable(encode(e)) && !e.MessageStop? && decode(encode(e)) == Some(e)
    requires Framable(encode(MessageStop)) && decode(encode(MessageStop)) == Some(MessageStop)
    requires NeverRestarts(events)
    ensures var printed := Print(Encoded(encode, events)) + (Frame(encode(MessageStop)) + after);
      var r := Stream(decode, Body(printed, fault)).result;
      r.Ok? && r.value.message == AssistantMessage(TextOf(events), Meant(Starts(events), events))
  {
    hide Frame, Print, Lines, Finish, NeverRestarts, Framable, Sound;
    var payloads := Encoded(encode, events);
    var tail := Frame(encode(MessageStop)) + after;
    assert events[..0] == [] && payloads[0..] == payloads;
    FeedEvents(decode, encode, events, 0);
    forall p | p in payloads ensures Framable(p) {
      var k :| 0 <= k < |payloads| && payloads[k] == p;
      assert events[k] in events;
    }
    FramesRoundTrip(payloads, tail, fault, EMPTY, OnData(decode));
    StopStops(decode, encode(MessageStop), AddEvents(EMPTY, events), after, fault);
    StreamSound(decode, Body(Print(payloads) + tail, fault));
    BlockReassembly(events);
  }

  // ----- Usage and model -----

  /** The last model a message_start names. */
  function LastModel(events: seq<Event>): string {
    if events == [] then ""
    else
      var last := events[|events| - 1];
      if last.MessageStart? && last.model != "" then last.model else LastModel(events[..|events| - 1])
  }

  /** The last positive count of input tokens. */
  function LastInput(events: seq<Event>): nat {
    if events == [] then 0
    else
      var last := events[|events| - 1];
      if last.MessageStart? && last.inputTokens > 0 then last.inputTokens else LastInput(events[..|events| - 1])
  }

  /** The last positive count of output tokens. */
  function LastOutput(events: seq<Event>): nat {
    if events == [] then 0
    else
      var last := events[|events| - 1];
      if last.MessageDelta? && last.outputTokens > 0 then last.outputTokens else LastOutput(events[..|events| - 1])
  }

  lemma {:induction false} CountsAreLast(events: seq<Event>)
    ensures var f := AddEvents(EMPTY, events);
      f.model == LastModel(events) && f.usage == Usage(LastInput(events), LastOutput(events), 0)
  {
    if events != [] {
      CountsAreLast(events[..|events| - 1]);
    }
  }

  // ----- Any stream -----

  /** The events among some payloads, up to message_stop. */
  function EventsIn(decode: Decoder, payloads: seq<string>): seq<Event> {
    if payloads == [] then []
    else match decode(payloads[0])
         case None => EventsIn(decode, payloads[1..])
         case Some(ev) => if ev.MessageStop? then [] else [ev] + EventsIn(decode, payloads[1..])
  }

  predicate HasStop(decode: Decoder, payloads: seq<string>) {
    exists k :: 0 <= k < |payloads| && decode(payloads[k]) == Some(MessageStop)
  }

  lemma {:induction false} EventFirst(f: Fold, ev: Event, events: seq<Event>)
    ensures AddEvents(f, [ev] + events) == AddEvents(AddEvent(f, ev), events)
    decreases |events|
  {
    hide AddEvent;
    var all := [ev] + events;
    if events == [] {
      assert all[..0] == [];
    } else {
      assert all[..|all| - 1] == [ev] + events[..|events| - 1];
      EventFirst(f, ev, events[..|events| - 1]);
    }
  }

  lemma {:induction false} StopIsLater(decode: Decoder, payloads: seq<string>)
    requires payloads != []
    ensures HasStop(decode, payloads) <==> decode(payloads[0]) == Some(MessageStop) || HasStop(decode, payloads[1..])
  {
    var rest := payloads[1..];
    if HasStop(decode, rest) {
      var k :| 0 <= k < |rest| && decode(rest[k]) == Some(MessageStop);
      assert payloads[k + 1] == rest[k];
    }
    if HasStop(decode, payloads) {
      var k :| 0 <= k < |payloads| && decode(payloads[k]) == Some(MessageStop);
      assert k > 0 ==> rest[k - 1] == payloads[k];
    }
  }

  lemma {:induction false} FeedAddsEvents(decode: Decoder, f: Fold, payloads: seq<string>)
    ensures Feed(payloads, f, OnData(decode)) ==
            Verdict(AddEvents(f, EventsIn(decode, payloads)), HasStop(decode, payloads))
    decreases |payloads|
  {
    if payloads != [] {
      var rest := payloads[1..];
      StopIsLater(decode, payloads);
      hide HasStop;
      match decode(payloads[0])
      case None => FeedAddsEvents(decode, f, rest);
      case Some(ev) =>
        if !ev.MessageStop? {
          FeedAddsEvents(decode, AddEvent(f, ev), rest);
          EventFirst(f, ev, EventsIn(decode, rest));
        }
    }
  }

  /**
   * What any stream means, printed by whatever server: it succeeds exactly when message_stop came before any line that
   * is too long, or there is no such line and the connection ended cleanly; what was emitted is its text, and on
   * success the message is that text with the calls of the last starts along the slots; unless an index restarts,
   * these are exactly the tool calls meant. A failure is the one the lines end with, model and token counts are the
   * last ones given, and the total is their sum.
   */
  lemma {:induction false} StreamMeaning(decode: Decoder, body: Body)
    ensures var payloads := PayloadsOf(Readable(Lines(body.text)));
      var events, r := EventsIn(decode, payloads), Stream(decode, body);
      && (r.result.Ok? <==> HasStop(decode, payloads) || EndOf(Lines(body.text), body.fault).None?)
      && Concat(r.emitted) == TextOf(events)
      && (r.result.Err? ==> Some(r.result.error) == EndOf(Lines(body.text), body.fault))
      && (r.result.Ok? ==>
            && r.result.value.message ==
               Message("assistant", TextOf(events), CallsMeant(events, Slots(events)), "", "")
            && r.result.value.model == LastModel(events)
            && r.result.value.usage ==
               Usage(LastInput(events), LastOutput(events), LastInput(events) + LastOutput(events)))
      && (r.result.Ok? && NeverRestarts(events) ==>
            r.result.value.message == AssistantMessage(TextOf(events), Meant(Starts(events), events)))
  {
    hide Lines, PayloadsOf, Readable, EndOf, EventsIn, AddEvents, HasStop, NeverRestarts, TextOf, Meant, Starts;
    hide CallsMeant, Slots, LastModel, LastInput, LastOutput;
    var lines := Lines(body.text);
    var payloads := PayloadsOf(Readable(lines));
    var events := EventsIn(decode, payloads);
    ScanIsFeed(lines, body.fault, EMPTY, OnData(decode));
    FeedAddsEvents(decode, EMPTY, payloads);
    StreamSound(decode, body);
    AllText(events);
    CountsAreLast(events);
    EveryStreamsMessage(events);
    if NeverRestarts(events) {
      BlockReassembly(events);
    }
  }

  // ----- Noise -----

  /** Frames that do not decode, and events of other types, never matter. */
  lemma {:induction false} UselessFramesIgnored(decode: Decoder, d: string)
    requires decode(d).None? || decode(d).value.OtherEvent?
    ensures Ignored(OnData(decode), d)
  {
  }

  /** Bodies that differ only in noise, wherever it stands, give the same result and the same deltas. */
  lemma {:induction false} StreamNoiseImmunity(decode: Decoder, a: Body, b: Body)
    requires WithoutNoise(OnData(decode), Lines(a.text)) == WithoutNoise(OnData(decode), Lines(b.text))
    requires a.fault == b.fault
    ensures Stream(decode, a) == Stream(decode, b)
  {
    hide Lines, WithoutNoise;
    NoiseImmunity(Lines(a.text), a.fault, EMPTY, OnData(decode));
    NoiseImmunity(Lines(b.text), b.fault, EMPTY, OnData(decode));
  }
}
