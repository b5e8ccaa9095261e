/** The OpenAI-compatible stream: folding chunks into one assistant message with reassembled tool calls. */
module OpenAi {
  import opened Text
  import opened Message
  import opened Sse

  /** One piece of a tool call, as it arrives. */
  datatype Shard = Shard(index: int, id: string, name: string, args: string)

  datatype Choice = Choice(content: string, shards: seq<Shard>)

  datatype Chunk = Chunk(model: string, usage: Option<Usage>, choices: seq<Choice>)

  /** JSON decoding of a frame; `None` for frames that do not decode. */
  type Decoder = string -> Option<Chunk>

  datatype Acc = Acc(id: string, name: string, args: string)

  /** The variables the stream callback updates; `emitted` records the calls of `emit`. */
  datatype Fold = Fold(
    calls: map<int, Acc>,
    order: seq<int>,
    content: string,
    emitted: seq<string>,
    usage: Usage,
    model: string)

  const EMPTY := Fold(map[], [], "", [], Usage(0, 0, 0), "")
  const DONE := "[DONE]"

  /** `order` lists exactly the keys of `calls`, each once, and what was emitted is what was collected. */
  predicate Sound(f: Fold) {
    Distinct(f.order) && Elements(f.order) == f.calls.Keys && Concat(f.emitted) == f.content
  }

  function Absorb(acc: Acc, tc: Shard): Acc {
    Acc(if tc.id != "" then tc.id else acc.id, if tc.name != "" then tc.name else acc.name, acc.args + tc.args)
  }

  function AddShard(f: Fold, tc: Shard): Fold {
    if tc.index in f.calls then f.(calls := f.calls[tc.index := Absorb(f.calls[tc.index], tc)])
    else f.(calls := f.calls[tc.index := Absorb(Acc("", "", ""), tc)], order := f.order + [tc.index])
  }

  function AddShards(f: Fold, shards: seq<Shard>): Fold {
    if shards == [] then f else AddShard(AddShards(f, shards[..|shards| - 1]), shards[|shards| - 1])
  }

  function AddContent(f: Fold, content: string): Fold {
    if content == "" then f else f.(content := f.content + content, emitted := f.emitted + [content])
  }

  function AddChoices(f: Fold, choices: seq<Choice>): Fold {
    if choices == [] then f
    else
      var ch := choices[|choices| - 1];
      AddShards(AddContent(AddChoices(f, choices[..|choices| - 1]), ch.content), ch.shards)
  }

  function AddHeader(f: Fold, chunk: Chunk): Fold {
    f.(model := if chunk.model != "" then chunk.model else f.model,
       usage := if chunk.usage.Some? then chunk.usage.value else f.usage)
  }

  function AddChunk(f: Fold, chunk: Chunk): Fold {
    AddChoices(AddHeader(f, chunk), chunk.choices)
  }

  function OnData(decode: Decoder): (Fold, string) -> Verdict<Fold> {
    (f: Fold, data: string) =>
      if data == DONE then Verdict(f, true)
      else match decode(data)
           case None => Verdict(f, false)
           case Some(chunk) => Verdict(AddChunk(f, chunk), false)
  }

  function CallsInOrder(f: Fold, order: seq<int>): seq<ToolCall>
    requires forall k :: 0 <= k < |order| ==> order[k] in f.calls
  {
    if order == [] then []
    else
      var n := |order| - 1;
      CallsInOrder(f, order[..n]) + [FunctionCall(f.calls[order[n]].id, f.calls[order[n]].name, f.calls[order[n]].args)]
  }

  function Finish(f: Fold): ChatResult
    requires Sound(f)
  {
    assert forall k :: 0 <= k < |f.order| ==> f.order[k] in Elements(f.order);
    ChatResult(AssistantMessage(f.content, CallsInOrder(f, f.order)), f.usage, f.model)
  }

  // ----- The callback and the adapter, step by step -----

  /** The inner loop of the stream callback: accumulate sharded tool calls by index. */
  method HandleShards(f: Fold, shards: seq<Shard>) returns (calls: map<int, Acc>, order: seq<int>)
    ensures f.(calls := calls, order := order) == AddShards(f, shards)
  {
    calls, order := f.calls, f.order;
    for j := 0 to |shards|
      invariant f.(calls := calls, order := order) == AddShards(f, shards[..j])
    {
      var tc := shards[j];
      assert shards[..j + 1][..j] == shards[..j];
      if tc.index !in calls {
        calls := calls[tc.index := Acc("", "", "")];
        order := order + [tc.index];
      }
      var acc := calls[tc.index];
      if tc.id != "" {
        acc := acc.(id := tc.id);
      }
      if tc.name != "" {
        acc := acc.(name := tc.name);
      }
      acc := acc.(args := acc.args + tc.args);
      calls := calls[tc.index := acc];
    }
    assert shards[..|shards|] == shards;
  }

  /** The stream callback of `openaiModel.Chat`. */
  method HandleData(decode: Decoder, f: Fold, data: string) returns (v: Verdict<Fold>)
    ensures v == OnData(decode)(f, data)
  {
    if data == DONE {
      return Verdict(f, true);
    }
    var decoded := decode(data);
    if decoded.None? {
      return Verdict(f, false);
    }
    var chunk := decoded.value;
    var g := f;
    if chunk.model != "" {
      g := g.(model := chunk.model);
    }
    if chunk.usage.Some? {
      g := g.(usage := chunk.usage.value);
    }
    ghost var start := g;
    assert start == AddHeader(f, chunk);
    for i := 0 to |chunk.choices|
      invariant g == AddChoices(start, chunk.choices[..i])
    {
      var ch := chunk.choices[i];
      assert chunk.choices[..i + 1][..i] == chunk.choices[..i];
      if ch.content != "" {
        g := g.(content := g.content + ch.content, emitted := g.emitted + [ch.content]);
      }
      var calls, order := HandleShards(g, ch.shards);
      g := g.(calls := calls, order := order);
    }
    assert chunk.choices[..|chunk.choices|] == chunk.choices;
    return Verdict(g, false);
  }

  /** What one request that got a 2xx answer yields: a result or the stream's error, and the deltas emitted. */
  datatype Streamed = Streamed(result: Result<ChatResult, string>, emitted: seq<string>)

  lemma {:induction false} ShardSound(f: Fold, tc: Shard)
    requires Sound(f)
    ensures Sound(AddShard(f, tc))
  {
    if tc.index !in f.calls {
      FoundInElements(f.order, tc.index);
      ElementsAppend(f.order, tc.index);
    }
  }

  lemma {:induction false} ShardsSound(f: Fold, shards: seq<Shard>)
    requires Sound(f)
    ensures Sound(AddShards(f, shards))
  {
    hide Sound;
    if shards != [] {
      ShardsSound(f, shards[..|shards| - 1]);
      ShardSound(AddShards(f, shards[..|shards| - 1]), shards[|shards| - 1]);
    }
  }

  lemma {:induction false} ContentSound(f: Fold, content: string)
    requires Sound(f)
    ensures Sound(AddContent(f, content))
  {
    if content != "" {
      assert (f.emitted + [content])[..|f.emitted|] == f.emitted;
    }
  }

  lemma {:induction false} ChoicesSound(f: Fold, choices: seq<Choice>)
    requires Sound(f)
    ensures Sound(AddChoices(f, choices))
  {
    hide Sound;
    if choices != [] {
      var before, ch := AddChoices(f, choices[..|choices| - 1]), choices[|choices| - 1];
      ChoicesSound(f, choices[..|choices| - 1]);
      ContentSound(before, ch.content);
      ShardsSound(AddContent(before, ch.content), ch.shards);
    }
  }

  lemma {:induction false} ChunkSound(f: Fold, chunk: Chunk)
    requires Sound(f)
    ensures Sound(AddChunk(f, chunk))
  {
    ChoicesSound(AddHeader(f, chunk), chunk.choices);
  }

  /** For every stream at all: `order` matches `calls`, and the emitted deltas concatenate to the content. */
  lemma {:induction false} StreamSound(decode: Decoder, body: Body)
    ensures Sound(Scan(body, EMPTY, OnData(decode)).state)
  {
    assert Sound(EMPTY);
    forall f: Fold, d: string | Sound(f) ensures Sound(OnData(decode)(f, d).state) {
      if d != DONE && decode(d).Some? {
        ChunkSound(f, decode(d).value);
      }
    }
    ScanKeeps(Lines(body.text), body.fault, EMPTY, OnData(decode), f => Sound(f));
  }

  function Stream(decode: Decoder, body: Body): Streamed {
    var scanned := Scan(body, EMPTY, OnData(decode));
    StreamSound(decode, body);
    match scanned.error
    case Some(e) => Streamed(Err(e), scanned.state.emitted)
    case None => Streamed(Ok(Finish(scanned.state)), scanned.state.emitted)
  }

  /** The part of `openaiModel.Chat` after a 2xx answer. */
  method ReadStream(decode: Decoder, body: Body) returns (r: Streamed)
    ensures r == Stream(decode, body)
  {
    var f, error := ScanSse(body, EMPTY, OnData(decode));
    StreamSound(decode, body);
    if error.Some? {
      return Streamed(Err(error.value), f.emitted);
    }
    var toolCalls := [];
    assert forall k :: 0 <= k < |f.order| ==> f.order[k] in Elements(f.order);
    for k := 0 to |f.order|
      invariant toolCalls == CallsInOrder(f, f.order[..k])
    {
      assert f.order[..k + 1][..k] == f.order[..k];
      var acc := f.calls[f.order[k]];
      toolCalls := toolCalls + [FunctionCall(acc.id, acc.name, acc.args)];
    }
    assert f.order[..|f.order|] == f.order;
    return Streamed(Ok(ChatResult(AssistantMessage(f.content, toolCalls), f.usage, f.model)), f.emitted);
  }

  // ----- Reassembly of sharded tool calls -----

  /** The shards of call `i`, in the order they arrived. */
  function Project(shards: seq<Shard>, i: int): seq<Shard> {
    if shards == [] then []
    else
      var last := shards[|shards| - 1];
      Project(shards[..|shards| - 1], i) + if last.index == i then [last] else []
  }

  /** The indices of the shards in order of first appearance. */
  function FirstSeen(shards: seq<Shard>): seq<int> {
    if shards == [] then []
    else
      var seen, i := FirstSeen(shards[..|shards| - 1]), shards[|shards| - 1].index;
      if i in seen then seen else seen + [i]
  }

  /** Where the first shard of call `i` stands; past the end if there is none. */
  function FirstAt(shards: seq<Shard>, i: int): (n: nat)
    ensures n <= |shards|
    ensures n < |shards| ==> shards[n].index == i
    ensures forall k :: 0 <= k < n ==> shards[k].index != i
  {
    if shards == [] then 0
    else
      var n := FirstAt(shards[..|shards| - 1], i);
      if n < |shards| - 1 || shards[|shards| - 1].index == i then n else n + 1
  }

  lemma {:induction false} SeenIff(shards: seq<Shard>, i: int)
    ensures i in FirstSeen(shards) <==> FirstAt(shards, i) < |shards|
  {
    if shards != [] {
      SeenIff(shards[..|shards| - 1], i);
    }
  }

  lemma {:induction false} EarlierSeen(shards: seq<Shard>, a: nat, b: nat)
    requires a < b < |FirstSeen(shards)|
    ensures FirstAt(shards, FirstSeen(shards)[a]) < FirstAt(shards, FirstSeen(shards)[b])
  {
    var front, seen := shards[..|shards| - 1], FirstSeen(shards);
    var before := FirstSeen(front);
    SeenIff(front, seen[a]);
    SeenIff(front, seen[b]);
    assert seen[a] == before[a];
    if b < |before| {
      assert seen[b] == before[b];
      EarlierSeen(front, a, b);
    }
  }

  /**
   * First-seen order in terms of positions: the indices are those of the shards, and one stands before another
   * exactly when its first shard comes before the other's.
   */
  lemma {:induction false} FirstSeenByPosition(shards: seq<Shard>)
    ensures var seen := FirstSeen(shards);
      && (forall i :: i in seen <==> FirstAt(shards, i) < |shards|)
      && (forall a, b :: 0 <= a < |seen| && 0 <= b < |seen| ==>
            (a < b <==> FirstAt(shards, seen[a]) < FirstAt(shards, seen[b])))
  {
    hide FirstSeen, FirstAt;
    var seen := FirstSeen(shards);
    forall i ensures i in seen <==> FirstAt(shards, i) < |shards| {
      SeenIff(shards, i);
    }
    forall a, b | 0 <= a < |seen| && 0 <= b < |seen|
      ensures a < b <==> FirstAt(shards, seen[a]) < FirstAt(shards, seen[b])
    {
      if a < b {
        EarlierSeen(shards, a, b);
      } else if b < a {
        EarlierSeen(shards, b, a);
      }
    }
  }

  function JoinArgs(pieces: seq<Shard>): string {
    if pieces == [] then "" else JoinArgs(pieces[..|pieces| - 1]) + pieces[|pieces| - 1].args
  }

  /**
   * `pieces` is one way to cut the call up: any split of its arguments, with its id and its name on at least
   * one piece each and either repeated or absent on the others.
   */
  predicate Cut(pieces: seq<Shard>, call: ToolCall) {
    && JoinArgs(pieces) == call.args
    && (forall p :: p in pieces ==> p.id in {"", call.id} && p.name in {"", call.name})
    && (exists p :: p in pieces && p.id == call.id)
    && (exists p :: p in pieces && p.name == call.name)
  }

  /** The accumulator of one index depends on that index's shards alone. */
  function AccOf(pieces: seq<Shard>): Acc {
    if pieces == [] then Acc("", "", "")
    else
      Absorb(AccOf(pieces[..|pieces| - 1]), pieces[|pieces| - 1])
  }

  lemma {:induction false} OrderIsFirstSeen(shards: seq<Shard>)
    ensures var f := AddShards(EMPTY, shards);
      f.order == FirstSeen(shards) && f.calls.Keys == Elements(FirstSeen(shards))
  {
    if shards != [] {
      var front, last := shards[..|shards| - 1], shards[|shards| - 1];
      OrderIsFirstSeen(front);
      FoundInElements(FirstSeen(front), last.index);
      ElementsAppend(FirstSeen(front), last.index);
    }
  }

  lemma {:induction false} OneMorePiece(pieces: seq<Shard>, p: Shard)
    ensures AccOf(pieces + [p]) == Absorb(AccOf(pieces), p)
  {
    assert (pieces + [p])[..|pieces|] == pieces;
  }

  lemma {:induction false} AccumulatesByIndex(shards: seq<Shard>, i: int)
    ensures var f := AddShards(EMPTY, shards);
      && (i in f.calls <==> Project(shards, i) != [])
      && (i in f.calls ==> f.calls[i] == AccOf(Project(shards, i)))
  {
    hide Absorb;
    if shards != [] {
      var front, last := shards[..|shards| - 1], shards[|shards| - 1];
      AccumulatesByIndex(front, i);
      if last.index == i {
        OneMorePiece(Project(front, i), last);
      } else {
        assert Project(shards, i) == Project(front, i);
      }
    }
  }

  /** The id the pieces agree on in the end: the last that is not empty. */
  function LastId(pieces: seq<Shard>): string {
    if pieces == [] then ""
    else if pieces[|pieces| - 1].id != "" then pieces[|pieces| - 1].id
    else LastId(pieces[..|pieces| - 1])
  }

  function LastName(pieces: seq<Shard>): string {
    if pieces == [] then ""
    else if pieces[|pieces| - 1].name != "" then pieces[|pieces| - 1].name
    else LastName(pieces[..|pieces| - 1])
  }

  /** The call some pieces make up: the last id and name given, and all the arguments. */
  function CallFrom(pieces: seq<Shard>): ToolCall {
    ToolCall(LastId(pieces), "function", LastName(pieces), JoinArgs(pieces))
  }

  function CallsFrom(shards: seq<Shard>, order: seq<int>): seq<ToolCall> {
    if order == [] then []
    else CallsFrom(shards, order[..|order| - 1]) + [CallFrom(Project(shards, order[|order| - 1]))]
  }

  lemma {:induction false} AccIsCall(pieces: seq<Shard>)
    ensures AccOf(pieces) == Acc(LastId(pieces), LastName(pieces), JoinArgs(pieces))
  {
    if pieces != [] {
      AccIsCall(pieces[..|pieces| - 1]);
    }
  }

  lemma {:induction false} CallIsAcc(pieces: seq<Shard>)
    ensures var acc := AccOf(pieces); CallFrom(pieces) == FunctionCall(acc.id, acc.name, acc.args)
  {
    AccIsCall(pieces);
  }

  /** For every sequence of shards: the calls along some indices are those their own shards make up. */
  lemma {:induction false} CallsAreCut(shards: seq<Shard>, order: seq<int>)
    requires forall k :: 0 <= k < |order| ==> order[k] in AddShards(EMPTY, shards).calls
    ensures CallsInOrder(AddShards(EMPTY, shards), order) == CallsFrom(shards, order)
  {
    hide AddShards, Project, AccOf, CallFrom;
    if order != [] {
      var i := order[|order| - 1];
      CallsAreCut(shards, order[..|order| - 1]);
      AccumulatesByIndex(shards, i);
      CallIsAcc(Project(shards, i));
    }
  }

  lemma {:induction false} CutReassembles(pieces: seq<Shard>, call: ToolCall)
    requires forall p :: p in pieces ==> p.id in {"", call.id} && p.name in {"", call.name}
    ensures var acc := AccOf(pieces);
      && acc.args == JoinArgs(pieces)
      && acc.id == (if exists p :: p in pieces && p.id == call.id then call.id else "")
      && acc.name == (if exists p :: p in pieces && p.name == call.name then call.name else "")
  {
    if pieces != [] {
      var front, last := pieces[..|pieces| - 1], pieces[|pieces| - 1];
      CutReassembles(front, call);
      assert last in pieces;
      assert forall p :: p in pieces <==> p in front || p == last;
    }
  }

  function CallsAlong(calls: map<int, ToolCall>, order: seq<int>): seq<ToolCall>
    requires forall k :: 0 <= k < |order| ==> order[k] in calls
  {
    if order == [] then []
    else CallsAlong(calls, order[..|order| - 1]) + [calls[order[|order| - 1]]]
  }

  predicate Matches(f: Fold, i: int, call: ToolCall) {
    i in f.calls && call == FunctionCall(f.calls[i].id, f.calls[i].name, f.calls[i].args)
  }

  lemma {:induction false} SameListing(f: Fold, order: seq<int>, calls: map<int, ToolCall>)
    requires forall k :: 0 <= k < |order| ==>
      order[k] in f.calls && order[k] in calls && Matches(f, order[k], calls[order[k]])
    ensures CallsInOrder(f, order) == CallsAlong(calls, order)
  {
    if order != [] {
      SameListing(f, order[..|order| - 1], calls);
    }
  }

  /** The shards cut up exactly these calls, interleaved in any way that keeps each call's pieces in order. */
  predicate Interleaving(shards: seq<Shard>, calls: map<int, ToolCall>) {
    && (forall k :: 0 <= k < |shards| ==> shards[k].index in calls)
    && (forall i :: i in calls ==>
          calls[i].id != "" && calls[i].name != "" && calls[i].kind == "function" && Cut(Project(shards, i), calls[i]))
  }

  lemma {:induction false} SeenIsKnown(shards: seq<Shard>, calls: map<int, ToolCall>)
    requires forall k :: 0 <= k < |shards| ==> shards[k].index in calls
    ensures forall k :: 0 <= k < |FirstSeen(shards)| ==> FirstSeen(shards)[k] in calls
  {
    if shards != [] {
      SeenIsKnown(shards[..|shards| - 1], calls);
    }
  }

  lemma {:induction false} CallMatches(shards: seq<Shard>, calls: map<int, ToolCall>, i: int)
    requires Interleaving(shards, calls) && i in calls
    ensures i in AddShards(EMPTY, shards).calls && Matches(AddShards(EMPTY, shards), i, calls[i])
  {
    AccumulatesByIndex(shards, i);
    CutReassembles(Project(shards, i), calls[i]);
  }

  lemma {:induction false} SameElements(order: seq<int>, a: set<int>, b: set<int>)
    requires Elements(order) == a && b <= a && forall k :: 0 <= k < |order| ==> order[k] in b
    ensures a == b
  {
  }

  /** Reassembly is a round trip: every call comes back whole, in the order the calls were first seen. */
  lemma {:induction false} ReassemblyRoundTrip(shards: seq<Shard>, calls: map<int, ToolCall>)
    requires Interleaving(shards, calls)
    ensures var f := AddShards(EMPTY, shards);
      && Sound(f) && f.order == FirstSeen(shards) && Elements(f.order) == calls.Keys
      && (forall k :: 0 <= k < |f.order| ==> f.order[k] in calls)
      && Finish(f).message.toolCalls == CallsAlong(calls, f.order)
  {
    hide Cut, Matches, FunctionCall;
    var f := AddShards(EMPTY, shards);
    ShardsSound(EMPTY, shards);
    SeenIsKnown(shards, calls);
    OrderIsFirstSeen(shards);
    forall i | i in calls ensures i in f.calls && Matches(f, i, calls[i]) {
      CallMatches(shards, calls, i);
    }
    SameElements(f.order, f.calls.Keys, calls.Keys);
    SameListing(f, f.order, calls);
  }

  // ----- From chunks to shards, and from text to chunks -----

  function ShardsOfChoices(choices: seq<Choice>): seq<Shard> {
    if choices == [] then [] else ShardsOfChoices(choices[..|choices| - 1]) + choices[|choices| - 1].shards
  }

  function ContentOfChoices(choices: seq<Choice>): string {
    if choices == [] then "" else ContentOfChoices(choices[..|choices| - 1]) + choices[|choices| - 1].content
  }

  function ShardsOf(chunks: seq<Chunk>): seq<Shard> {
    if chunks == [] then [] else ShardsOf(chunks[..|chunks| - 1]) + ShardsOfChoices(chunks[|chunks| - 1].choices)
  }

  function ContentOf(chunks: seq<Chunk>): string {
    if chunks == [] then "" else ContentOf(chunks[..|chunks| - 1]) + ContentOfChoices(chunks[|chunks| - 1].choices)
  }

  function AddChunks(f: Fold, chunks: seq<Chunk>): Fold {
    if chunks == [] then f else AddChunk(AddChunks(f, chunks[..|chunks| - 1]), chunks[|chunks| - 1])
  }

  lemma {:induction false} ShardsAppend(f: Fold, a: seq<Shard>, b: seq<Shard>)
    ensures AddShards(f, a + b) == AddShards(AddShards(f, a), b)
    decreases |b|
  {
    if b == [] {
      assert a + b == a;
    } else {
      assert (a + b)[..|a + b| - 1] == a + b[..|b| - 1];
      ShardsAppend(f, a, b[..|b| - 1]);
    }
  }

  /** The parts of the fold that tool calls touch do not depend on the rest. */
  predicate SameCalls(f: Fold, g: Fold) {
    f.calls == g.calls && f.order == g.order
  }

  lemma {:induction false} ShardsIgnoreContent(f: Fold, g: Fold, shards: seq<Shard>)
    requires SameCalls(f, g)
    ensures SameCalls(AddShards(f, shards), AddShards(g, shards))
  {
    if shards != [] {
      ShardsIgnoreContent(f, g, shards[..|shards| - 1]);
    }
  }

  lemma {:induction false} ShardsKeepContent(f: Fold, shards: seq<Shard>)
    ensures AddShards(f, shards).content == f.content
  {
    if shards != [] {
      ShardsKeepContent(f, shards[..|shards| - 1]);
    }
  }

  lemma {:induction false} ChoicesContent(f: Fold, choices: seq<Choice>)
    ensures AddChoices(f, choices).content == f.content + ContentOfChoices(choices)
  {
    hide AddShards;
    if choices != [] {
      var before, ch := AddChoices(f, choices[..|choices| - 1]), choices[|choices| - 1];
      ChoicesContent(f, choices[..|choices| - 1]);
      ShardsKeepContent(AddContent(before, ch.content), ch.shards);
    }
  }

  lemma {:induction false} ChoicesFlatten(f: Fold, choices: seq<Choice>)
    ensures SameCalls(AddChoices(f, choices), AddShards(f, ShardsOfChoices(choices)))
  {
    if choices != [] {
      hide AddShard, AddShards;
      var front, ch := choices[..|choices| - 1], choices[|choices| - 1];
      ChoicesFlatten(f, front);
      ShardsAppend(f, ShardsOfChoices(front), ch.shards);
      var shown := AddContent(AddChoices(f, front), ch.content);
      ShardsIgnoreContent(shown, AddShards(f, ShardsOfChoices(front)), ch.shards);
    }
  }

  lemma {:induction false} ChunksFlatten(chunks: seq<Chunk>)
    ensures SameCalls(AddChunks(EMPTY, chunks), AddShards(EMPTY, ShardsOf(chunks)))
    ensures AddChunks(EMPTY, chunks).content == ContentOf(chunks)
  {
    hide AddShard, AddChoices;
    if chunks != [] {
      var front, last := chunks[..|chunks| - 1], chunks[|chunks| - 1];
      var f, shards := AddChunks(EMPTY, front), ShardsOfChoices(last.choices);
      ChunksFlatten(front);
      ChoicesFlatten(AddHeader(f, last), last.choices);
      ChoicesContent(AddHeader(f, last), last.choices);
      ShardsIgnoreContent(AddHeader(f, last), AddShards(EMPTY, ShardsOf(front)), shards);
      ShardsAppend(EMPTY, ShardsOf(front), shards);
    }
  }

  function Encoded(encode: Chunk -> string, chunks: seq<Chunk>): seq<string> {
    seq(|chunks|, k requires 0 <= k < |chunks| => encode(chunks[k]))
  }

  lemma {:induction false} FeedChunks(decode: Decoder, encode: Chunk -> string, chunks: seq<Chunk>, i: nat)
    requires i <= |chunks|
    requires forall c :: c in chunks ==> encode(c) != DONE && decode(encode(c)) == Some(c)
    ensures Feed(Encoded(encode, chunks)[i..], AddChunks(EMPTY, chunks[..i]), OnData(decode)) ==
            Verdict(AddChunks(EMPTY, chunks), false)
    decreases |chunks| - i
  {
    hide AddChunk;
    var payloads := Encoded(encode, chunks);
    if i == |chunks| {
      assert chunks[..i] == chunks;
    } else {
      assert chunks[..i + 1][..i] == chunks[..i];
      assert payloads[i..][0] == encode(chunks[i]) && payloads[i..][1..] == payloads[i + 1..];
      assert chunks[i] in chunks;
      FeedChunks(decode, encode, chunks, i + 1);
    }
  }

  lemma {:induction false} DoneStops(decode: Decoder, f: Fold, after: string, fault: Option<string>)
    ensures Scan(Body(Frame(DONE) + after, fault), f, OnData(decode)) == Scanned(f, None)
  {
    var payloads := [DONE];
    assert Print(payloads) == Frame(DONE) by { assert payloads[1..] == []; }
    assert ByteLength(DONE) == 6;
    FramesRoundTrip(payloads, after, fault, f, OnData(decode));
  }

  lemma {:induction false} CallsAgree(f: Fold, g: Fold, order: seq<int>)
    requires f.calls == g.calls && forall k :: 0 <= k < |order| ==> order[k] in f.calls
    ensures CallsInOrder(f, order) == CallsInOrder(g, order)
  {
    if order != [] {
      CallsAgree(f, g, order[..|order| - 1]);
    }
  }

  lemma {:induction false} FinishOf(f: Fold, shards: seq<Shard>, calls: map<int, ToolCall>)
    requires Sound(f) && SameCalls(f, AddShards(EMPTY, shards)) && Interleaving(shards, calls)
    ensures forall k :: 0 <= k < |FirstSeen(shards)| ==> FirstSeen(shards)[k] in calls
    ensures Finish(f).message == AssistantMessage(f.content, CallsAlong(calls, FirstSeen(shards)))
  {
    hide Interleaving;
    ReassemblyRoundTrip(shards, calls);
    var g := AddShards(EMPTY, shards);
    assert forall k :: 0 <= k < |f.order| ==> f.order[k] in Elements(f.order);
    CallsAgree(f, g, f.order);
  }

  /**
   * End to end: a body that frames the chunks of any interleaving of these calls, ends with [DONE], and goes on
   * with anything at all, is read back as one message with the whole text and exactly these calls.
   */
  lemma {:induction false} StreamRoundTrip(decode: Decoder, encode: Chunk -> string, chunks: seq<Chunk>,
                                           calls: map<int, ToolCall>, after: string,
                                           fault: Option<string>)
    requires forall c :: c in chunks ==> Framable(encode(c)) && encode(c) != DONE && decode(encode(c)) == Some(c)
    requires Interleaving(ShardsOf(chunks), calls)
    ensures var r := Stream(decode, Body(Print(Encoded(encode, chunks)) + (Frame(DONE) + after), fault)).result;
      && r.Ok? && r.value.message.role == "assistant" && r.value.message.content == ContentOf(chunks)
      && (forall k :: 0 <= k < |FirstSeen(ShardsOf(chunks))| ==> FirstSeen(ShardsOf(chunks))[k] in calls)
      && r.value.message.toolCalls == CallsAlong(calls, FirstSeen(ShardsOf(chunks)))
  {
    hide Frame, Print, Lines, Finish, Interleaving, Framable, Sound;
    var payloads := Encoded(encode, chunks);
    var body := Body(Print(payloads) + (Frame(DONE) + after), fault);
    var f := AddChunks(EMPTY, chunks);
    assert chunks[..0] == [] && payloads[0..] == payloads;
    FeedChunks(decode, encode, chunks, 0);
    forall p | p in payloads ensures Framable(p) {
      var k :| 0 <= k < |payloads| && payloads[k] == p;
      assert chunks[k] in chunks;
    }
    FramesRoundTrip(payloads, Frame(DONE) + after, fault, EMPTY, OnData(decode));
    DoneStops(decode, f, after, fault);
    StreamSound(decode, body);
    ChunksFlatten(chunks);
    FinishOf(f, ShardsOf(chunks), calls);
  }

  // ----- Usage and model -----

  /** The last model a chunk names. */
  function LastModel(chunks: seq<Chunk>): string {
    if chunks == [] then ""
    else
      var last := chunks[|chunks| - 1];
      if last.model != "" then last.model else LastModel(chunks[..|chunks| - 1])
  }

  /** The last usage a chunk reports. */
  function LastUsage(chunks: seq<Chunk>): Usage {
    if chunks == [] then Usage(0, 0, 0)
    else
      var last := chunks[|chunks| - 1];
      if last.usage.Some? then last.usage.value else LastUsage(chunks[..|chunks| - 1])
  }

  lemma {:induction false} ShardsKeepHeader(f: Fold, shards: seq<Shard>)
    ensures AddShards(f, shards).model == f.model && AddShards(f, shards).usage == f.usage
  {
    if shards != [] {
      ShardsKeepHeader(f, shards[..|shards| - 1]);
    }
  }

  lemma {:induction false} ChoicesKeepHeader(f: Fold, choices: seq<Choice>)
    ensures AddChoices(f, choices).model == f.model && AddChoices(f, choices).usage == f.usage
  {
    if choices != [] {
      var front, last := choices[..|choices| - 1], choices[|choices| - 1];
      ChoicesKeepHeader(f, front);
      ShardsKeepHeader(AddContent(AddChoices(f, front), last.content), last.shards);
    }
  }

  lemma {:induction false} HeadersAreLast(chunks: seq<Chunk>)
    ensures var f := AddChunks(EMPTY, chunks); f.model == LastModel(chunks) && f.usage == LastUsage(chunks)
  {
    hide AddChoices;
    if chunks != [] {
      var front, last := chunks[..|chunks| - 1], chunks[|chunks| - 1];
      HeadersAreLast(front);
      ChoicesKeepHeader(AddHeader(AddChunks(EMPTY, front), last), last.choices);
    }
  }

  // ----- Any stream -----

  /** The chunks among some payloads, up to the final frame. */
  function ChunksIn(decode: Decoder, payloads: seq<string>): seq<Chunk> {
    if payloads == [] || payloads[0] == DONE then []
    else
      var rest := ChunksIn(decode, payloads[1..]);
      match decode(payloads[0]) case None => rest case Some(chunk) => [chunk] + rest
  }

  lemma {:induction false} ChunkFirst(f: Fold, chunk: Chunk, chunks: seq<Chunk>)
    ensures AddChunks(f, [chunk] + chunks) == AddChunks(AddChunk(f, chunk), chunks)
    decreases |chunks|
  {
    hide AddChunk;
    var all := [chunk] + chunks;
    if chunks == [] {
      assert all[..0] == [];
    } else {
      assert all[..|all| - 1] == [chunk] + chunks[..|chunks| - 1];
      ChunkFirst(f, chunk, chunks[..|chunks| - 1]);
    }
  }

  lemma {:induction false} NoChunks(f: Fold)
    ensures AddChunks(f, []) == f
  {
  }

  lemma {:induction false} FeedAddsChunks(decode: Decoder, f: Fold, payloads: seq<string>)
    ensures Feed(payloads, f, OnData(decode)) ==
            Verdict(AddChunks(f, ChunksIn(decode, payloads)), DONE in payloads)
    decreases |payloads|
  {
    hide AddChunk, AddChunks;
    if payloads == [] || payloads[0] == DONE {
      assert AddChunks(f, []) == f by { NoChunks(f); }
    } else {
      var rest := payloads[1..];
      assert DONE in payloads <==> DONE in rest by { assert payloads == [payloads[0]] + rest; }
      match decode(payloads[0])
      case None => FeedAddsChunks(decode, f, rest);
      case Some(chunk) =>
        FeedAddsChunks(decode, AddChunk(f, chunk), rest);
        ChunkFirst(f, chunk, ChunksIn(decode, rest));
    }
  }

  /**
   * What any stream means, printed by whatever server: it succeeds exactly when [DONE] came before any line that is
   * too long, or there is no such line and the connection ended cleanly; what was emitted is the text of its chunks,
   * and on success so is the content, with one call for each index in first-seen order, put together from its shards.
   * A failure is the one the lines end with, and model and usage are the last ones given.
   */
  lemma {:induction false} StreamMeaning(decode: Decoder, body: Body)
    ensures var payloads := PayloadsOf(Readable(Lines(body.text)));
      var chunks, r := ChunksIn(decode, payloads), Stream(decode, body);
      && (r.result.Ok? <==> "[DONE]" in payloads || EndOf(Lines(body.text), body.fault).None?)
      && Concat(r.emitted) == ContentOf(chunks)
      && (r.result.Err? ==> Some(r.result.error) == EndOf(Lines(body.text), body.fault))
      && (r.result.Ok? ==>
            var shards := ShardsOf(chunks);
            && r.result.value.message ==
               Message("assistant", ContentOf(chunks), CallsFrom(shards, FirstSeen(shards)), "", "")
            && r.result.value.model == LastModel(chunks) && r.result.value.usage == LastUsage(chunks))
  {
    hide Lines, PayloadsOf, Readable, EndOf, ChunksIn, AddChunks, AddShards, ShardsOf, CallsFrom, FirstSeen;
    hide LastModel, LastUsage;
    var lines := Lines(body.text);
    var payloads := PayloadsOf(Readable(lines));
    var chunks := ChunksIn(decode, payloads);
    var f, g := AddChunks(EMPTY, chunks), AddShards(EMPTY, ShardsOf(chunks));
    ScanIsFeed(lines, body.fault, EMPTY, OnData(decode));
    FeedAddsChunks(decode, EMPTY, payloads);
    StreamSound(decode, body);
    ChunksFlatten(chunks);
    HeadersAreLast(chunks);
    assert Sound(EMPTY);
    ShardsSound(EMPTY, ShardsOf(chunks));
    assert forall k :: 0 <= k < |f.order| ==> f.order[k] in Elements(f.order);
    CallsAgree(f, g, f.order);
    OrderIsFirstSeen(ShardsOf(chunks));
    CallsAreCut(ShardsOf(chunks), f.order);
  }

  // ----- Noise -----

  /** Frames that do not decode never matter. */
  lemma {:induction false} UselessFramesIgnored(decode: Decoder, d: string)
    requires d != DONE && decode(d).None?
    ensures Ignored(OnData(decode), d)
  {
  }

  /** Bodies that differ only in noise, wherever it stands, give the same result and the same deltas. */
  lemma {:induction false} StreamNoiseImmunity(decode: Decoder, a: Body, b: Body)
    requires WithoutNoise(OnData(decode), Lines(a.text)) == WithoutNoise(OnData(decode), Lines(b.text))
    requires a.fault == b.fault
    ensures Stream(decode, a) == Stream(decode, b)
  {
    hide Lines, WithoutNoise;
    NoiseImmunity(Lines(a.text), a.fault, EMPTY, OnData(decode));
    NoiseImmunity(Lines(b.text), b.fault, EMPTY, OnData(decode));
  }
}
