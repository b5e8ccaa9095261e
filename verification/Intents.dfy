/** What natural-language requests can reach, compared with what is published. */
module Intents {
  import opened Text
  import opened Catalog
  import opened Session
  import opened SessionRuns
  import opened Message
  import opened Sse
  import OpenAi
  import opened Chat
  import opened Registry
  import opened Startup
  import opened Runner

  /** Every tool offered to the model is a published operation. */
  predicate OffersPublished(offered: seq<Tool>, ops: Ops) {
    forall k :: 0 <= k < |offered| ==> offered[k].name in ops
  }

  /** `readOnly` ignores case, `isLendoraTool` does not. */
  predicate ReadOnlyInLowerCase(c: Catalog) {
    forall n :: n in c && ReadOnly(n) ==> HasPrefix(n, LENDORA)
  }

  lemma {:induction false} OwnIsTrimmed(n: string)
    requires Trimmed(n)
    ensures TrimSpace(n) == n
  {
    TrimmedIff(n);
  }

  lemma {:induction false} NoneOfOurs(n: string, l: string)
    requires l == ToLower(TrimSpace(n)) && |l| >= 2 && l[0] == 'l' && l[1] == 'e'
    ensures n != BROADCAST && n != TX_STATUS && n != LIST_TOOLS
  {
    OwnIsTrimmed(BROADCAST);
    OwnIsTrimmed(TX_STATUS);
    OwnIsTrimmed(LIST_TOOLS);
    assert BROADCAST[0] == 'b' && TX_STATUS[0] == 'e' && LIST_TOOLS[1] == 'i';
  }

  lemma {:induction false} ReadOnlyIsNotLocal(n: string)
    requires ReadOnly(n)
    ensures n != BROADCAST && n != TX_STATUS && n != LIST_TOOLS
  {
    var l := ToLower(TrimSpace(n));
    assert l[0] == 'l' && l[1] == 'e' by {
      assert HasPrefix(l, "lendora_get_") ==> l[..2] == "lendora_get_"[..2];
    }
    NoneOfOurs(n, l);
  }

  /**
   * Everything the model is offered is also published exactly when every read-only name of the catalog is spelled
   * with a literal `lendora_` in front; otherwise intents reach a private tool the card does not list.
   */
  lemma {:induction false} OffersPublishedExactlyWhen(c: Catalog, local: LocalSchemas, offered: seq<Tool>)
    requires WellKeyed(c) && OffersExactly(offered, c)
    ensures OffersPublished(offered, StartupOps(c, local)) <==> ReadOnlyInLowerCase(c)
  {
    hide ReadOnly, StartupOps, TrimSpace;
    StartupIsTotal(c, local);
    var ops := StartupOps(c, local);
    forall n | n in c && ReadOnly(n) ensures n in ops <==> HasPrefix(n, LENDORA) {
      ReadOnlyIsNotLocal(n);
      TrimmedIff(n);
    }
    if OffersPublished(offered, ops) {
      forall n | n in c && ReadOnly(n) ensures HasPrefix(n, LENDORA) {
        NamedByKey(c, n);
        var k :| 0 <= k < |offered| && offered[k] == c[n];
        assert offered[k].name in ops;
      }
    }
  }

  /** Every tool the runner itself has had sent is a published operation. */
  predicate SendsPublished(t: Talk, ops: Ops) {
    forall i :: 0 <= i < |t.mcp.trace| && t.mcp.trace[i].Sent? && t.mcp.trace[i].call in t.own ==>
      t.mcp.trace[i].tool in ops
  }

  lemma {:induction false} OfferedIsPublished(offered: seq<Tool>, ops: Ops)
    requires OffersPublished(offered, ops)
    ensures forall n :: Offered(offered, n) ==> n in ops
  {
  }

  /** When everything offered is published, intents reach nothing private, whatever the world does. */
  lemma {:induction false} PublishedIfOffered(token: string, dial: Dial, before: seq<Request>, w: World, cfg: Config,
                                              offered: seq<Tool>, intent: string, local: LocalSchemas)
    requires Connect(token, dial).0.Ok?
    requires OffersExactly(offered, Connect(token, dial).0.value.tools)
    requires ReadOnlyInLowerCase(Connect(token, dial).0.value.tools)
    ensures var start := Connect(token, dial).0.value;
      SendsPublished(Converse(w, cfg, Run(start, before), offered, intent).0, StartupOps(start.tools, local))
  {
    hide Connect, Converse, Run, OffersExactly, ReadOnlyInLowerCase, StartupOps, WellKeyed, ReadOnly, Consistent;
    hide Disciplined;
    var start := Connect(token, dial).0.value;
    ConnectDisciplined(token, dial);
    ReadOnlyContainment(token, dial, before, w, cfg, offered, intent);
    OffersPublishedExactlyWhen(start.tools, local, offered);
    OfferedIsPublished(offered, StartupOps(start.tools, local));
  }

  // ----- A conversation that reaches a given tool -----

  /** A chunk with one whole tool call. */
  function OneCall(call: ToolCall): OpenAi.Chunk {
    OpenAi.Chunk("", None, [OpenAi.Choice("", [OpenAi.Shard(0, call.id, call.name, call.args)])])
  }

  function OneCallText(payload: string): string {
    Print([payload]) + (Frame(OpenAi.DONE) + "")
  }

  lemma {:induction false} OneCallShards(call: ToolCall)
    requires call.kind == "function" && call.id != "" && call.name != ""
    ensures var shards := OpenAi.ShardsOf([OneCall(call)]); var calls := map[0 := call];
      && OpenAi.Interleaving(shards, calls) && OpenAi.FirstSeen(shards) == [0]
      && OpenAi.CallsAlong(calls, [0]) == [call]
  {
    var shard := OpenAi.Shard(0, call.id, call.name, call.args);
    var choices, calls := OneCall(call).choices, map[0 := call];
    assert choices[..0] == [] && [OneCall(call)][..0] == [];
    assert OpenAi.ShardsOfChoices(choices) == [shard];
    assert [shard][..0] == [] && [0][..0] == [];
    assert OpenAi.Project([shard], 0) == [shard];
    assert OpenAi.JoinArgs([shard]) == call.args;
    assert shard in [shard];
    assert OpenAi.Cut([shard], call);
    assert OpenAi.CallsAlong(calls, []) == [];
  }

  lemma {:induction false} OneCallStream(decode: OpenAi.Decoder, payload: string, call: ToolCall)
    requires call.kind == "function" && call.id != "" && call.name != ""
    requires Framable(payload) && payload != OpenAi.DONE && decode(payload) == Some(OneCall(call))
    ensures var r := OpenAi.Stream(decode, Body(OneCallText(payload), None)).result;
      r.Ok? && r.value.message.toolCalls == [call]
  {
    hide Framable, Frame, Print, OpenAi.Stream, OpenAi.ShardsOf, OpenAi.Interleaving, OpenAi.FirstSeen;
    hide OpenAi.CallsAlong, OneCall;
    var chunks, encode := [OneCall(call)], (c: OpenAi.Chunk) => payload;
    OneCallShards(call);
    assert OpenAi.Encoded(encode, chunks) == [payload];
    OpenAi.StreamRoundTrip(decode, encode, chunks, map[0 := call], "", None);
  }

  /** The model answers the first chat round with this body; after that the context is done. */
  function AnswersOnce(body: Body): nat -> nat -> Turn {
    (r: nat) => (k: nat) =>
      if r == 0 then Turn(None, Answer(200, body), None) else Turn(Some("done"), NoAnswer(""), None)
  }

  lemma {:induction false} FirstRound(cfg: Config, decode: OpenAi.Decoder, body: Body)
    requires cfg.apiKey != "" && cfg.codec == OpenAiCodec(decode) && OpenAi.Stream(decode, body).result.Ok?
    ensures var r, s := ChatRound(cfg, AnswersOnce(body)(0)), OpenAi.Stream(decode, body);
      r.result.Ok? && r.result.value.message == s.result.value.message
  {
    hide OpenAi.Stream, IsRetryable;
    var trials := Trials(cfg.codec, AnswersOnce(body)(0));
    assert trials(0).tried == Attempt(cfg.codec, Answer(200, body));
  }

  lemma {:induction false} LaterRound(cfg: Config, body: Body)
    ensures ChatRound(cfg, AnswersOnce(body)(1)).result.Err?
  {
    hide IsRetryable, Attempt;
  }

  /** The world in which the model asks for one tool and nobody else uses the client. */
  function AskingWorld(body: Body, parse: string -> Result<Json, string>, env: CallEnv): World {
    World("", AnswersOnce(body), (r: nat, k: nat) => env, (r: nat, k: nat) => [], parse)
  }

  predicate HasSent(t: Talk, n: string) {
    exists i :: 0 <= i < |t.mcp.trace| && t.mcp.trace[i].Sent? && t.mcp.trace[i].call in t.own &&
                t.mcp.trace[i].tool == n
  }

  lemma {:induction false} CallSends(s: State, n: string, args: Json, env: CallEnv)
    requires n in s.tools && s.session.Some? && !env.first.SendFailed?
    ensures Call(s, n, args, env).0.trace == s.trace + [Sent(s.calls, s.session.value, n, args, env.first)]
  {
  }

  lemma {:induction false} OneAnswerSends(w: World, t: Talk, call: ToolCall)
    requires ReadOnly(call.name) && w.parse(call.args).Ok? && w.others(0, 0) == [] && !w.call(0, 0).first.SendFailed?
    requires call.name in t.mcp.tools && t.mcp.session.Some?
    ensures var (u, failed) := AnswerCalls(w, 0, t, [call], 0);
      failed.None? && HasSent(u, call.name)
  {
    hide ReadOnly, Call, Reply;
    var s, args, env := t.mcp, w.parse(call.args).value, w.call(0, 0);
    var u := AnswerOne(w, 0, t, call, args, 0);
    CallSends(s, call.name, args, env);
    assert u.mcp.trace[|s.trace|] == Sent(s.calls, s.session.value, call.name, args, env.first);
    assert HasSent(u, call.name);
    assert AnswerCalls(w, 0, u, [call], 1) == (u, None);
  }

  lemma {:induction false} StillSent(t: Talk, u: Talk, n: string)
    requires HasSent(t, n) && u.mcp == t.mcp && u.own == t.own
    ensures HasSent(u, n)
  {
  }

  /**
   * Every read-only tool of the catalog can be reached. Whenever the client has a session and the runner offers
   * anything, a model whose reply decodes to one call of the tool, with arguments that decode, has it sent.
   */
  lemma {:induction false} IntentCanSend(s: State, offered: seq<Tool>, intent: string, cfg: Config,
                                         decode: OpenAi.Decoder, payload: string, call: ToolCall,
                                         parse: string -> Result<Json, string>, env: CallEnv)
    requires s.session.Some? && call.name in s.tools && ReadOnly(call.name) && offered != []
    requires cfg.apiKey != "" && cfg.codec == OpenAiCodec(decode)
    requires call.kind == "function" && call.id != "" && call.name != "" && parse(call.args).Ok?
    requires Framable(payload) && payload != OpenAi.DONE && decode(payload) == Some(OneCall(call))
    requires !env.first.SendFailed?
    ensures var w := AskingWorld(Body(OneCallText(payload), None), parse, env);
      HasSent(Converse(w, cfg, s, offered, intent).0, call.name)
  {
    hide ReadOnly, Framable, OpenAi.Stream, OneCallText, ChatRound, AnswerCalls, HasSent, FinalAnswer, OneCall;
    var body := Body(OneCallText(payload), None);
    var w := AskingWorld(body, parse, env);
    OneCallStream(decode, payload, call);
    FirstRound(cfg, decode, body);
    LaterRound(cfg, body);
    var t := Talk(s, Opening(w, intent), {}, [], 0);
    var r := ChatRound(cfg, w.turns(0));
    var told := Told(t, r);
    OneAnswerSends(w, told, call);
    var u := AnswerCalls(w, 0, told, [call], 0).0;
    assert Rounds(w, cfg, t, 0) == Rounds(w, cfg, u, 1);
    var r' := ChatRound(cfg, w.turns(1));
    assert Rounds(w, cfg, u, 1).0 == Asked(u, r');
    assert HasSent(Asked(u, r'), call.name) by { StillSent(u, Asked(u, r'), call.name); }
  }

  lemma ShortPayload()
    ensures Framable("{}") && "{}" != OpenAi.DONE
  {
    assert ByteLength("{}"[1..]) == 1;
  }

  /** A conversation that has this read-only tool sent. */
  lemma {:induction false} SendOf(s: State, offered: seq<Tool>, n: string) returns (w: World, cfg: Config)
    requires s.session.Some? && n in s.tools && n != "" && ReadOnly(n) && offered != []
    ensures HasSent(Converse(w, cfg, s, offered, "").0, n)
  {
    hide Converse, ReadOnly, OneCall, Framable, HasSent;
    var call := FunctionCall("call", n, "{}");
    var decode: OpenAi.Decoder := (s: string) => Some(OneCall(call));
    var parse: string -> Result<Json, string> := (s: string) => Ok(JObject(map[]));
    var env := CallEnv(Answered([], false), DialFailed(""), Answered([], false));
    cfg := Config("key", "model", OpenAiCodec(decode));
    w := AskingWorld(Body(OneCallText("{}"), None), parse, env);
    ShortPayload();
    IntentCanSend(s, offered, "", cfg, decode, "{}", call, parse, env);
  }

  lemma {:induction false} ConnectHasSession(token: string, dial: Dial)
    requires Connect(token, dial).0.Ok?
    ensures Connect(token, dial).0.value.session.Some?
  {
    hide Acceptable, CatalogOf, Refusal, TrimSpace;
  }

  lemma {:induction false} NamesAreNotEmpty(c: Catalog, n: string)
    requires WellKeyed(c) && n in c
    ensures n != ""
  {
  }

  lemma {:induction false} UnpublishedName(c: Catalog, local: LocalSchemas, n: string)
    requires WellKeyed(c) && n in c && ReadOnly(n) && !HasPrefix(n, LENDORA)
    ensures n !in StartupOps(c, local)
  {
    hide ReadOnly, StartupOps, TrimSpace, HasPrefix;
    StartupIsTotal(c, local);
    TrimmedIff(n);
    ReadOnlyIsNotLocal(n);
  }

  lemma {:induction false} SentUnpublished(t: Talk, ops: Ops, n: string)
    requires HasSent(t, n) && n !in ops
    ensures !SendsPublished(t, ops)
  {
  }

  /** A read-only name in other letters, and a conversation that has it sent. */
  lemma {:induction false} PrivateSend(token: string, dial: Dial, offered: seq<Tool>, local: LocalSchemas)
    returns (w: World, cfg: Config)
    requires Connect(token, dial).0.Ok?
    requires OffersExactly(offered, Connect(token, dial).0.value.tools)
    requires !ReadOnlyInLowerCase(Connect(token, dial).0.value.tools)
    ensures var start := Connect(token, dial).0.value;
      !SendsPublished(Converse(w, cfg, start, offered, "").0, StartupOps(start.tools, local))
  {
    hide Connect, Converse, StartupOps, ReadOnly, WellKeyed, HasPrefix, HasSent;
    var start := Connect(token, dial).0.value;
    ConnectDisciplined(token, dial);
    ConnectHasSession(token, dial);
    var n :| n in start.tools && ReadOnly(n) && !HasPrefix(n, LENDORA);
    NamesAreNotEmpty(start.tools, n);
    assert offered != [];
    w, cfg := SendOf(start, offered, n);
    UnpublishedName(start.tools, local, n);
    SentUnpublished(Converse(w, cfg, start, offered, "").0, StartupOps(start.tools, local), n);
  }

  /**
   * What intents can reach. Whatever the model replies, whoever else uses the client and whatever the intent: every
   * tool the runner has sent is a published operation exactly when every read-only name of the catalog is spelled with
   * a literal `lendora_` in front.
   */
  lemma {:induction false} IntentsReachPublishedExactlyWhen(token: string, dial: Dial, offered: seq<Tool>,
                                                            local: LocalSchemas)
    requires Connect(token, dial).0.Ok?
    requires OffersExactly(offered, Connect(token, dial).0.value.tools)
    ensures var start := Connect(token, dial).0.value;
      (forall before, w, cfg, intent ::
         SendsPublished(Converse(w, cfg, Run(start, before), offered, intent).0, StartupOps(start.tools, local))) <==>
      ReadOnlyInLowerCase(start.tools)
  {
    hide Connect, Converse, OffersExactly, ReadOnlyInLowerCase, StartupOps, SendsPublished;
    var start := Connect(token, dial).0.value;
    if ReadOnlyInLowerCase(start.tools) {
      forall before, w, cfg, intent
        ensures SendsPublished(Converse(w, cfg, Run(start, before), offered, intent).0, StartupOps(start.tools, local))
      {
        PublishedIfOffered(token, dial, before, w, cfg, offered, intent, local);
      }
    } else {
      var w, cfg := PrivateSend(token, dial, offered, local);
      assert Run(start, []) == start;
      assert !SendsPublished(Converse(w, cfg, Run(start, []), offered, "").0, StartupOps(start.tools, local));
    }
  }

  /** A listing with a Lendora tool and a read-only tool in capitals. */
  function ShoutedListing(schema: Json): seq<Listing> {
    [Listing("lendora_get_y", "", schema), Listing("LENDORA_GET_X", "", schema)]
  }

  lemma Shouted()
    ensures var n := "LENDORA_GET_X"; n != "" && Trimmed(n) && ReadOnly(n) && !HasPrefix(n, LENDORA)
  {
    var n := "LENDORA_GET_X";
    TrimmedIff(n);
    assert ToLower(n) == "lendora_get_x";
    assert HasPrefix("lendora_get_x", "lendora_get_");
    assert n[0] == 'L' && LENDORA[0] == 'l';
  }

  lemma {:induction false} ShoutedIsAccepted(schema: Json)
    requires schema != JNull
    ensures var listed := ShoutedListing(schema);
      && Acceptable(listed) && "LENDORA_GET_X" in CatalogOf(listed)
      && LendoraNames(CatalogOf(listed)) == {"lendora_get_y"}
  {
    var listed, x, y := ShoutedListing(schema), "LENDORA_GET_X", "lendora_get_y";
    Shouted();
    assert x[0] == 'L' && y[0] == 'l';
    TrimmedIff(x);
    TrimmedIff(y);
    assert Keys(listed) == [y, x];
    CatalogNames(listed);
    assert Elements([y, x]) == {y, x};
    assert HasPrefix(y, LENDORA);
  }

  /**
   * The failing input, from listing to send: start-up accepts the listing and publishes `lendora_get_y` alone, and a
   * conversation has `LENDORA_GET_X` sent.
   */
  lemma {:induction false} UnpublishedToolIsSent(token: string, schema: Json, local: LocalSchemas, offered: seq<Tool>)
    returns (w: World, cfg: Config)
    requires TrimSpace(token) != "" && schema != JNull
    requires OffersExactly(offered, CatalogOf(ShoutedListing(schema)))
    ensures var (start, n) := (Connect(token, ToolsListed(ShoutedListing(schema))).0, "LENDORA_GET_X");
      && start.Ok? && LendoraNames(start.value.tools) == {"lendora_get_y"} && n !in StartupOps(start.value.tools, local)
      && HasSent(Converse(w, cfg, start.value, offered, "").0, n)
  {
    hide ReadOnly, StartupOps, Converse, HasSent, CatalogOf, Acceptable, LendoraNames, TrimSpace, HasPrefix;
    var dial, n := ToolsListed(ShoutedListing(schema)), "LENDORA_GET_X";
    ShoutedIsAccepted(schema);
    Shouted();
    var c := CatalogOf(ShoutedListing(schema));
    AcceptedIsWellKeyed(ShoutedListing(schema));
    var start := Connect(token, dial).0;
    assert start.Ok? && start.value.tools == c && start.value.session.Some?;
    UnpublishedName(c, local, n);
    assert c[n] in offered;
    w, cfg := SendOf(start.value, offered, n);
  }
}
