/** Dispatch of public requests: what is advertised is what can be called. */
module Executor {
  import opened Text
  import opened Catalog
  import opened Session
  import opened SessionRuns
  import opened Registry
  import opened Card
  import opened Startup

  datatype Envelope = Envelope(skill: string, tool: string, args: Json, intent: string)

  /** What a request comes to: an answer by the intent runner, a refusal, or a call of an operation. */
  datatype Handled = Intent(text: string) | Refused(reason: string) | Invoked(op: Op)

  const NEEDS_JSON := "request must be JSON naming a skill and tool"
  const NO_INTENTS := "natural-language tasks are not configured"
  const NEEDS_NAMES := "request must name a skill and tool"

  function UnknownTool(tool: string): string {
    "unknown tool " + Quoted(tool)
  }

  function WrongSkill(op: Op, skill: string): string {
    "tool " + Quoted(op.tool) + " belongs to skill " + Quoted(op.skill) + ", not " + Quoted(skill)
  }

  /** The checks of `handle`, up to the call itself; `envelope` is the decoded request, if it decoded. */
  function Handle(ops: Ops, hasRunner: bool, raw: string, envelope: Option<Envelope>): Handled {
    match envelope
    case None => if hasRunner then Intent(raw) else Refused(NEEDS_JSON)
    case Some(req) =>
      if TrimSpace(req.intent) != "" then
        if hasRunner then Intent(TrimSpace(req.intent)) else Refused(NO_INTENTS)
      else if req.skill == "" || req.tool == "" then Refused(NEEDS_NAMES)
      else if req.tool !in ops then Refused(UnknownTool(req.tool))
      else if ops[req.tool].skill != req.skill then Refused(WrongSkill(ops[req.tool], req.skill))
      else Invoked(ops[req.tool])
  }

  /** `handle`, reading the registry. */
  method HandleRequest(reg: Registry, hasRunner: bool, raw: string, envelope: Option<Envelope>) returns (r: Handled)
    requires Keyed(reg.ops)
    ensures r == Handle(reg.ops, hasRunner, raw, envelope)
  {
    if envelope.None? {
      if !hasRunner {
        return Refused(NEEDS_JSON);
      }
      return Intent(raw);
    }
    var req := envelope.value;
    var intent := TrimSpace(req.intent);
    if intent != "" {
      if !hasRunner {
        return Refused(NO_INTENTS);
      }
      return Intent(intent);
    }
    if req.skill == "" || req.tool == "" {
      return Refused(NEEDS_NAMES);
    }
    var op := reg.Lookup(req.tool);
    if op.None? {
      return Refused(UnknownTool(req.tool));
    }
    if op.value.skill != req.skill {
      return Refused(WrongSkill(op.value, req.skill));
    }
    return Invoked(op.value);
  }

  /** The request, whatever else it carries, passes every check and calls an operation. */
  predicate Dispatches(ops: Ops, hasRunner: bool, raw: string, req: Envelope) {
    Handle(ops, hasRunner, raw, Some(req)).Invoked?
  }

  /** The operation is registered under this skill, and both are named. */
  predicate Callable(ops: Ops, skill: string, tool: string) {
    skill != "" && tool != "" && tool in ops && ops[tool].skill == skill
  }

  lemma SkillsAreNamed()
    ensures SKILL_META != "" && SKILL_LENDORA != "" && SKILL_EVM != ""
  {
    assert SKILL_META[9] == 'm' && SKILL_LENDORA[9] == 'l' && SKILL_EVM[9] == 'e';
  }

  lemma {:induction false} StartupIsNamed(c: Catalog, local: LocalSchemas, tool: string)
    requires WellKeyed(c) && tool in StartupOps(c, local)
    ensures tool != "" && StartupOps(c, local)[tool].skill in {SKILL_META, SKILL_LENDORA, SKILL_EVM}
  {
    hide IsLendoraTool, StartupOps;
    StartupIsTotal(c, local);
    assert BROADCAST[0] == 'b' && TX_STATUS[0] == 'e' && LIST_TOOLS[0] == 'l';
  }

  /** For every request: it calls the operation it names exactly when it carries no intent and names a callable one. */
  lemma {:induction false} DispatchIff(ops: Ops, hasRunner: bool, raw: string, req: Envelope)
    ensures Dispatches(ops, hasRunner, raw, req) <==>
            TrimSpace(req.intent) == "" && Callable(ops, req.skill, req.tool)
    ensures Dispatches(ops, hasRunner, raw, req) ==> Handle(ops, hasRunner, raw, Some(req)).op == ops[req.tool]
  {
  }

  /** What is amiss with a request that is refused. */
  function Amiss(ops: Ops, envelope: Option<Envelope>): string {
    if envelope.None? then "request must be JSON naming a skill and tool"
    else
      var req := envelope.value;
      if TrimSpace(req.intent) != "" then "natural-language tasks are not configured"
      else if req.skill == "" || req.tool == "" then "request must name a skill and tool"
      else if req.tool !in ops then "unknown tool " + Quoted(req.tool)
      else
        "tool " + Quoted(req.tool) + " belongs to skill " + Quoted(ops[req.tool].skill) + ", not " + Quoted(req.skill)
  }

  /**
   * What every request comes to, decoded or not. It goes to the intent runner exactly when there is one and the request
   * did not decode, as it stands, or carries an intent, which is then trimmed; it calls an operation exactly when it
   * decoded without an intent and names a callable one; otherwise it is refused, with the first thing amiss.
   */
  lemma {:induction false} HandleExactly(ops: Ops, hasRunner: bool, raw: string, envelope: Option<Envelope>)
    requires Keyed(ops)
    ensures var h := Handle(ops, hasRunner, raw, envelope);
      var intent := if envelope.Some? then TrimSpace(envelope.value.intent) else raw;
      && (h.Intent? <==> hasRunner && (envelope.None? || intent != ""))
      && (h.Intent? ==> h.text == intent)
      && (h.Invoked? <==>
            envelope.Some? && intent == "" && Callable(ops, envelope.value.skill, envelope.value.tool))
      && (h.Invoked? ==> h.op == ops[envelope.value.tool])
      && (h.Refused? ==> h.reason == Amiss(ops, envelope))
  {
    hide TrimSpace, Quoted;
  }

  predicate Describes(descriptors: seq<Descriptor>, skill: string, tool: string) {
    exists d :: d in descriptors && d.skill == skill && d.tool == tool
  }

  lemma {:induction false} ListedIff(ops: Ops, filter: string, skill: string, tool: string)
    requires Keyed(ops) && (filter == "" || filter == skill)
    ensures Describes(Select(ByName(ops), filter), skill, tool) <==> tool in ops && ops[tool].skill == skill
  {
    hide Select, ByName;
    if tool in ops && ops[tool].skill == skill {
      ListToolsHas(ops, filter, Describe(ops[tool]));
    }
    if Describes(Select(ByName(ops), filter), skill, tool) {
      var d :| d in Select(ByName(ops), filter) && d.skill == skill && d.tool == tool;
      ListToolsHas(ops, filter, d);
    }
  }

  /** After start-up, what can be called under a skill is what its group holds. */
  lemma {:induction false} CallableIff(c: Catalog, local: LocalSchemas, skill: string, tool: string)
    requires WellKeyed(c)
    ensures var ops := StartupOps(c, local);
      && (Callable(ops, skill, tool) <==> tool in ops && ops[tool].skill == skill)
      && (Callable(ops, skill, tool) <==> skill in Groups(ops) && tool in Groups(ops)[skill])
  {
    hide IsLendoraTool, StartupOps, Groups, WellKeyed;
    var ops := StartupOps(c, local);
    GroupHas(ops, skill, tool);
    if tool in ops {
      StartupIsNamed(c, local, tool);
      SkillsAreNamed();
    }
  }

  /**
   * Advertised is dispatched. After every start-up, a request without an intent passes the checks of `handle` exactly
   * when list_tools returns the skill and tool it names, with or without the filter, and exactly when the group the
   * card is made from holds the tool; with an intent it is never dispatched.
   */
  lemma {:induction false} AdvertisedIsDispatched(c: Catalog, local: LocalSchemas, hasRunner: bool, raw: string,
                                                  req: Envelope)
    requires WellKeyed(c)
    ensures var ops := StartupOps(c, local);
      var dispatched, blank := Dispatches(ops, hasRunner, raw, req), TrimSpace(req.intent) == "";
      && (dispatched <==> blank && req.skill in Groups(ops) && req.tool in Groups(ops)[req.skill])
      && (dispatched <==> blank && Describes(Select(ByName(ops), ""), req.skill, req.tool))
      && (dispatched <==> blank && Describes(Select(ByName(ops), req.skill), req.skill, req.tool))
  {
    hide IsLendoraTool, StartupOps, Handle, Select, ByName, Groups, WellKeyed, Dispatches, Describes, TrimSpace;
    hide Callable;
    var ops := StartupOps(c, local);
    StartupIsTotal(c, local);
    DispatchIff(ops, hasRunner, raw, req);
    CallableIff(c, local, req.skill, req.tool);
    ListedIff(ops, "", req.skill, req.tool);
    ListedIff(ops, req.skill, req.skill, req.tool);
  }

  lemma {:induction false} InTheTable(skill: string)
    requires skill in {SKILL_META, SKILL_LENDORA, SKILL_EVM}
    ensures exists m :: m in SKILL_METAS && m.id == skill
  {
    MetaIds();
    assert SKILL_METAS[0] in SKILL_METAS && SKILL_METAS[1] in SKILL_METAS && SKILL_METAS[2] in SKILL_METAS;
  }

  /** And every skill that has something to call has its entry on the card. */
  lemma {:induction false} CallableSkillIsOnCard(id: Identity, c: Catalog, local: LocalSchemas, url: string,
                                                 skill: string)
    requires WellKeyed(c)
    ensures (exists e :: e in StartupCard(id, c, local, url).skills && e.id == skill) <==>
            exists tool :: Callable(StartupOps(c, local), skill, tool)
  {
    hide IsLendoraTool, StartupOps, Groups, WellKeyed, Callable, Entries;
    var ops := StartupOps(c, local);
    EntryIff(id, SKILL_METAS, Groups(ops), skill);
    if skill in Groups(ops) && Groups(ops)[skill] != [] {
      var tool := Groups(ops)[skill][0];
      CallableIff(c, local, skill, tool);
      StartupIsNamed(c, local, tool);
      InTheTable(skill);
      assert Callable(ops, skill, tool);
    }
    if exists tool :: Callable(ops, skill, tool) {
      var tool :| Callable(ops, skill, tool);
      CallableIff(c, local, skill, tool);
      StartupIsNamed(c, local, tool);
      InTheTable(skill);
    }
  }

  lemma {:induction false} ProxiesAreInCatalog(c: Catalog, local: LocalSchemas, tool: string)
    requires tool in StartupOps(c, local) && StartupOps(c, local)[tool].target.Private?
    ensures tool in c
  {
    hide IsLendoraTool;
  }

  lemma {:induction false} SendsSomething(s: State, tool: string, args: Json, env: CallEnv)
    requires Consistent(s) && tool in s.tools && s.session.Some?
    ensures s.trace < Call(s, tool, args, env).0.trace
  {
    hide SessionFailure, RetrySafeTool, Acceptable, CatalogOf, SameCatalog, Refusal, Consistent;
    var sent := CallTool(s.(calls := s.calls + 1), s.calls, tool, args, env.first).0;
    assert s.trace < sent.trace;
    var y := ReconnectAdds(sent, env.dial);
  }

  /** The catalog check of `Call` never refuses a dispatched Lendora tool, whatever the client has been through. */
  lemma {:induction false} DispatchedToolIsInCatalog(token: string, dial: Dial, requests: seq<Request>,
                                                     local: LocalSchemas, hasRunner: bool, raw: string, req: Envelope,
                                                     env: CallEnv)
    requires Connect(token, dial).0.Ok?
    ensures var ops := StartupOps(Connect(token, dial).0.value.tools, local);
      var s := Run(Connect(token, dial).0.value, requests);
      Dispatches(ops, hasRunner, raw, req) && ops[req.tool].target.Private? ==>
        req.tool in s.tools && (s.session.Some? ==> s.trace < Call(s, req.tool, req.args, env).0.trace)
  {
    hide Connect, IsLendoraTool, StartupOps, WellKeyed, Consistent, Disciplined, Call, Handle, TrimSpace;
    var start := Connect(token, dial).0.value;
    var s, ops := Run(start, requests), StartupOps(start.tools, local);
    ConnectDisciplined(token, dial);
    RunDisciplined(start, requests);
    DispatchIff(ops, hasRunner, raw, req);
    if Dispatches(ops, hasRunner, raw, req) && ops[req.tool].target.Private? {
      ProxiesAreInCatalog(start.tools, local, req.tool);
      if s.session.Some? {
        SendsSomething(s, req.tool, req.args, env);
      }
    }
  }

  lemma {:induction false} TargetIsNamed(c: Catalog, local: LocalSchemas, tool: string)
    requires WellKeyed(c)
    ensures tool in LendoraNames(c) <==> tool in c && HasPrefix(tool, "lendora_")
    ensures tool in LendoraNames(c) ==> tool != BROADCAST && tool != TX_STATUS && tool != LIST_TOOLS
  {
    hide TrimSpace;
    if tool in c {
      TrimmedIff(tool);
      if IsLendoraTool(tool) {
        LendoraIsNotLocal(tool);
      }
    }
  }

  /**
   * Every dispatched request runs the operation it names: a private tool exactly for the Lendora names of the catalog,
   * the broadcast and the status lookup under their own names, and the self-description under list_tools.
   */
  lemma {:induction false} DispatchRunsWhatIsNamed(c: Catalog, local: LocalSchemas, hasRunner: bool, raw: string,
                                                   req: Envelope)
    requires WellKeyed(c)
    requires Handle(StartupOps(c, local), hasRunner, raw, Some(req)).Invoked?
    ensures var op := Handle(StartupOps(c, local), hasRunner, raw, Some(req)).op;
      && op.tool == req.tool && op.skill == req.skill
      && (op.target == Private(req.tool) <==> req.tool in c && HasPrefix(req.tool, "lendora_"))
      && (op.target == Local("broadcast_evm_tx") <==> req.tool == "broadcast_evm_tx")
      && (op.target == Local("evm_tx_status") <==> req.tool == "evm_tx_status")
      && (op.target == SelfDescription <==> req.tool == "list_tools")
  {
    hide LendoraNames, IsLendoraTool, StartupOps, Handle, TrimSpace, WellKeyed;
    DispatchIff(StartupOps(c, local), hasRunner, raw, req);
    StartupIsTotal(c, local);
    OwnNamesDiffer();
    TargetIsNamed(c, local, req.tool);
  }
}
