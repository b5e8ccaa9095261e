/** Start-up: the two local tools, the synchronized Lendora tools, and the self-description, in one registry. */
module Startup {
  import opened Text
  import opened Catalog
  import opened Order
  import opened Session
  import opened SessionRuns
  import opened Registry
  import opened Card

  const BROADCAST := "broadcast_evm_tx"
  const TX_STATUS := "evm_tx_status"
  const LENDORA := "lendora_"
  const NO_LENDORA_TOOLS := "private defi mcp catalog contains no lendora_* tools for this lending-agent token"

  predicate IsLendoraTool(name: string) {
    HasPrefix(TrimSpace(name), LENDORA)
  }

  function LendoraNames(c: Catalog): set<string> {
    set n | n in c && IsLendoraTool(n)
  }

  /** Input schemas of the two local tools. */
  datatype LocalSchemas = LocalSchemas(broadcast: Json, status: Json)

  function LocalOps(local: LocalSchemas): Ops {
    map[BROADCAST := Op(SKILL_EVM, BROADCAST, local.broadcast, Local(BROADCAST)),
        TX_STATUS := Op(SKILL_EVM, TX_STATUS, local.status, Local(TX_STATUS))]
  }

  function ProxyOps(c: Catalog, names: set<string>): Ops {
    map n | n in names && n in c :: Op(SKILL_LENDORA, n, c[n].schema, Private(n))
  }

  const META_OPS: Ops := map[LIST_TOOLS := Op(SKILL_META, LIST_TOOLS, JNull, SelfDescription)]

  /** The registry every start-up with this catalog ends with. */
  function StartupOps(c: Catalog, local: LocalSchemas): Ops {
    LocalOps(local) + ProxyOps(c, LendoraNames(c)) + META_OPS
  }

  /** Trimmed Lendora names collide with none of the agent's own three. */
  lemma {:induction false} LendoraIsNotLocal(n: string)
    requires Trimmed(n) && IsLendoraTool(n)
    ensures n != BROADCAST && n != TX_STATUS && n != LIST_TOOLS
  {
    assert TrimLeft(n) == n;
    assert TrimSpace(n) == n;
    assert n[..2] == "le";
    assert BROADCAST[0] == 'b' && TX_STATUS[1] == 'v' && LIST_TOOLS[1] == 'i';
  }

  /** The registration part of `BuildProxy`. */
  method BuildProxy(local: LocalSchemas) returns (reg: Registry, error: Option<string>)
    ensures error.None? && fresh(reg) && reg.ops == LocalOps(local)
  {
    reg := new Registry();
    error := reg.Add(SKILL_EVM, BROADCAST, local.broadcast, Local(BROADCAST));
    if error.Some? {
      return;
    }
    error := reg.Add(SKILL_EVM, TX_STATUS, local.status, Local(TX_STATUS));
  }

  /** What registration has done after walking the tools called `walked`. */
  predicate Registered(c: Catalog, local: LocalSchemas, walked: seq<string>, ops: Ops) {
    ops == LocalOps(local) + ProxyOps(c, Elements(walked) * LendoraNames(c))
  }

  lemma {:induction false} ProxyOpsAdd(c: Catalog, names: set<string>, n: string)
    requires n in c
    ensures ProxyOps(c, names + {n}) == ProxyOps(c, names)[n := Op(SKILL_LENDORA, n, c[n].schema, Private(n))]
    ensures n !in names ==> n !in ProxyOps(c, names)
  {
  }

  lemma OwnNamesDiffer()
    ensures BROADCAST != TX_STATUS && BROADCAST != LIST_TOOLS && TX_STATUS != LIST_TOOLS
  {
    assert BROADCAST[0] == 'b' && TX_STATUS[0] == 'e' && LIST_TOOLS[0] == 'l';
  }

  lemma {:induction false} LocalsAre(local: LocalSchemas)
    ensures var ops := LocalOps(local);
      && ops.Keys == {BROADCAST, TX_STATUS} && Keyed(ops)
      && ops[BROADCAST] == Op(SKILL_EVM, BROADCAST, local.broadcast, Local(BROADCAST))
      && ops[TX_STATUS] == Op(SKILL_EVM, TX_STATUS, local.status, Local(TX_STATUS))
  {
    OwnNamesDiffer();
  }

  lemma {:induction false} NameIsFree(c: Catalog, local: LocalSchemas, walked: seq<string>, ops: Ops, n: string)
    requires WellKeyed(c) && Registered(c, local, walked, ops)
    requires n in c && n !in walked
    ensures IsLendoraTool(n) ==> n !in ops
    ensures IsLendoraTool(n) ==>
      Registered(c, local, walked + [n], ops[n := Op(SKILL_LENDORA, n, c[n].schema, Private(n))])
    ensures !IsLendoraTool(n) ==> Registered(c, local, walked + [n], ops)
  {
    hide IsLendoraTool, LocalOps, ProxyOps, Elements, TrimSpace;
    ElementsAppend(walked, n);
    var before, after := Elements(walked) * LendoraNames(c), Elements(walked + [n]) * LendoraNames(c);
    if IsLendoraTool(n) {
      LendoraIsNotLocal(n);
      FoundInElements(walked, n);
      assert after == before + {n};
      ProxyOpsAdd(c, before, n);
      LocalsAre(local);
      assert n !in ops;
      assert ops[n := Op(SKILL_LENDORA, n, c[n].schema, Private(n))] == LocalOps(local) + ProxyOps(c, after);
    } else {
      assert after == before;
    }
  }

  /** The loop itself, over the tools in the order they came. */
  method RegisterAll(reg: Registry, ghost c: Catalog, ghost names: seq<string>, all: seq<Tool>, local: LocalSchemas)
    returns (error: Option<string>, registered: nat)
    requires WellKeyed(c) && Distinct(names) && Elements(names) == c.Keys && Enumerates(c, names, all)
    requires Registered(c, local, [], reg.ops)
    modifies reg
    ensures error.None? && Registered(c, local, names, reg.ops)
    ensures registered == 0 <==> forall k :: 0 <= k < |names| ==> !IsLendoraTool(names[k])
  {
    hide IsLendoraTool, Registered, LocalOps, ProxyOps, WellKeyed, Elements;
    error, registered := None, 0;
    for i := 0 to |all|
      invariant error.None? && Registered(c, local, names[..i], reg.ops)
      invariant registered == 0 <==> forall k :: 0 <= k < i ==> !IsLendoraTool(names[k])
    {
      var tool := all[i];
      assert names[..i + 1] == names[..i] + [names[i]];
      NamedByKey(c, names[i]);
      NameIsFree(c, local, names[..i], reg.ops, names[i]);
      if !IsLendoraTool(tool.name) {
        continue;
      }
      error := reg.AddProxy(SKILL_LENDORA, tool.name, tool.schema);
      if error.Some? {
        return;
      }
      registered := registered + 1;
    }
    assert names[..|all|] == names;
  }

  lemma {:induction false} NothingRegistered(c: Catalog, local: LocalSchemas)
    ensures Registered(c, local, [], LocalOps(local))
  {
    assert ProxyOps(c, Elements([]) * LendoraNames(c)) == map[];
  }

  lemma {:induction false} LendoraInCatalog(c: Catalog)
    ensures LendoraNames(c) <= c.Keys
  {
  }

  lemma {:induction false} NoneAmong(c: Catalog, names: seq<string>)
    requires Elements(names) == c.Keys
    ensures LendoraNames(c) == {} <==> forall k :: 0 <= k < |names| ==> !IsLendoraTool(names[k])
  {
    hide IsLendoraTool;
    if LendoraNames(c) != {} {
      var n :| n in LendoraNames(c);
      assert n in Elements(names);
      var k :| 0 <= k < |names| && names[k] == n;
    }
    forall k | 0 <= k < |names| ensures IsLendoraTool(names[k]) ==> names[k] in LendoraNames(c) {
      assert names[k] in Elements(names);
    }
  }

  lemma {:induction false} ProxiesAreSeparate(c: Catalog)
    requires WellKeyed(c)
    ensures BROADCAST !in LendoraNames(c) && TX_STATUS !in LendoraNames(c) && LIST_TOOLS !in LendoraNames(c)
  {
    hide IsLendoraTool;
    forall n | n in LendoraNames(c) ensures n != BROADCAST && n != TX_STATUS && n != LIST_TOOLS {
      LendoraIsNotLocal(n);
    }
  }

  lemma {:induction false} ProxiesAre(c: Catalog)
    ensures var ops := ProxyOps(c, LendoraNames(c));
      && ops.Keys == LendoraNames(c) && Keyed(ops)
      && forall n :: n in LendoraNames(c) ==> n in c && ops[n] == Op(SKILL_LENDORA, n, c[n].schema, Private(n))
  {
    hide IsLendoraTool;
  }

  lemma {:induction false} WalkedAll(c: Catalog, names: seq<string>, local: LocalSchemas, ops: Ops)
    requires WellKeyed(c) && Elements(names) == c.Keys && Registered(c, local, names, ops)
    ensures LendoraNames(c) == {} <==> forall k :: 0 <= k < |names| ==> !IsLendoraTool(names[k])
    ensures LIST_TOOLS !in ops
    ensures ops[LIST_TOOLS := META_OPS[LIST_TOOLS]] == StartupOps(c, local)
  {
    hide IsLendoraTool, LendoraNames, LocalOps, ProxyOps, Elements;
    NoneAmong(c, names);
    assert Elements(names) * LendoraNames(c) == LendoraNames(c) by { LendoraInCatalog(c); }
    ProxiesAreSeparate(c);
    LocalsAre(local);
    ProxiesAre(c);
    OwnNamesDiffer();
  }

  /**
   * The registration loop of `run`. With a catalog the client accepted it fails for one reason only, a catalog
   * without Lendora tools; otherwise the registry is the same whatever order the tools came in.
   */
  method RegisterCatalog(reg: Registry, client: Client, local: LocalSchemas)
    returns (error: Option<string>, panics: bool)
    requires reg.ops == LocalOps(local) && WellKeyed(client.tools)
    modifies reg
    ensures error == (if LendoraNames(client.tools) == {} then Some(NO_LENDORA_TOOLS) else None)
    ensures !panics
    ensures error.None? ==> reg.ops == StartupOps(client.tools, local)
  {
    hide IsLendoraTool, Registered, LocalOps, ProxyOps, WellKeyed;
    var all;
    ghost var names;
    all, names := client.Tools();
    NothingRegistered(client.tools, local);
    var registered;
    error, registered := RegisterAll(reg, client.tools, names, all, local);
    WalkedAll(client.tools, names, local, reg.ops);
    if error.Some? {
      return error, false;
    }
    if registered == 0 {
      return Some(NO_LENDORA_TOOLS), false;
    }
    panics := reg.RegisterMeta();
    return None, panics;
  }

  /**
   * The operations after every start-up, one by one: exactly the catalog's Lendora names and the agent's own three are
   * registered.
   */
  lemma {:induction false} StartupIsTotal(c: Catalog, local: LocalSchemas)
    requires WellKeyed(c)
    ensures var ops := StartupOps(c, local);
      && Keyed(ops) && ops.Keys == LendoraNames(c) + {BROADCAST, TX_STATUS, LIST_TOOLS}
      && (forall n :: n in LendoraNames(c) ==> ops[n] == Op(SKILL_LENDORA, n, c[n].schema, Private(n)))
      && ops[BROADCAST] == Op(SKILL_EVM, BROADCAST, local.broadcast, Local(BROADCAST))
      && ops[TX_STATUS] == Op(SKILL_EVM, TX_STATUS, local.status, Local(TX_STATUS))
      && ops[LIST_TOOLS] == Op(SKILL_META, LIST_TOOLS, JNull, SelfDescription)
  {
    hide IsLendoraTool, LocalOps, ProxyOps, LendoraNames;
    OwnNamesDiffer();
    ProxiesAreSeparate(c);
    LocalsAre(local);
    ProxiesAre(c);
    var ops, proxies := StartupOps(c, local), ProxyOps(c, LendoraNames(c));
    assert ops.Keys == LendoraNames(c) + {BROADCAST, TX_STATUS, LIST_TOOLS};
    assert forall n :: n in LendoraNames(c) ==> ops[n] == proxies[n];
    assert ops[BROADCAST] == LocalOps(local)[BROADCAST] && ops[TX_STATUS] == LocalOps(local)[TX_STATUS];
  }

  // ----- What the public sees -----

  lemma SkillsDiffer()
    ensures SKILL_META != SKILL_LENDORA && SKILL_META != SKILL_EVM && SKILL_LENDORA != SKILL_EVM
  {
    assert SKILL_META[9] == 'm' && SKILL_LENDORA[9] == 'l' && SKILL_EVM[9] == 'e';
  }

  lemma BroadcastComesFirst()
    ensures Before(BROADCAST, TX_STATUS)
  {
    assert BROADCAST[0] == 'b' && TX_STATUS[0] == 'e';
  }

  lemma {:induction false} SortedPair(a: string, b: string)
    requires Before(a, b)
    ensures Sorted({a, b}) == [a, b]
  {
    hide Before;
    var pair := [a, b];
    BeforeIsTotal(a, b);
    assert Ascending(pair) && Elements(pair) == {a, b};
    hide Ascending, Elements;
    AscendingIsUnique(Sorted({a, b}), pair);
  }

  lemma {:induction false} SortedSingle(a: string)
    ensures Sorted({a}) == [a]
  {
    assert Elements([a]) == {a};
    AscendingIsUnique(Sorted({a}), [a]);
  }

  /** The groups of the start-up registry: three skills, each with its sorted tools. */
  function StartupGroup(c: Catalog, skill: string): set<string> {
    if skill == SKILL_META then {LIST_TOOLS}
    else if skill == SKILL_EVM then {BROADCAST, TX_STATUS}
    else if skill == SKILL_LENDORA then LendoraNames(c)
    else {}
  }

  lemma {:induction false} StartupTools(c: Catalog, local: LocalSchemas, skill: string)
    requires WellKeyed(c)
    ensures ToolsOf(StartupOps(c, local), skill) == StartupGroup(c, skill)
  {
    hide IsLendoraTool, StartupOps, WellKeyed;
    StartupIsTotal(c, local);
    SkillsDiffer();
    OwnNamesDiffer();
  }

  lemma {:induction false} StartupSkills(c: Catalog, local: LocalSchemas)
    requires WellKeyed(c) && LendoraNames(c) != {}
    ensures Skills(StartupOps(c, local)) == {SKILL_META, SKILL_LENDORA, SKILL_EVM}
  {
    hide IsLendoraTool, StartupOps, WellKeyed, LendoraNames;
    var ops := StartupOps(c, local);
    StartupIsTotal(c, local);
    var n :| n in LendoraNames(c);
    assert ops[n].skill in Skills(ops) && ops[LIST_TOOLS].skill in Skills(ops) && ops[BROADCAST].skill in Skills(ops);
  }

  /** Start-up groups depend on the catalog only through its Lendora names. */
  lemma {:induction false} GroupsDependOnNames(a: Catalog, b: Catalog, local: LocalSchemas, local': LocalSchemas)
    requires WellKeyed(a) && WellKeyed(b) && LendoraNames(a) == LendoraNames(b) != {}
    ensures Groups(StartupOps(a, local)) == Groups(StartupOps(b, local'))
  {
    hide IsLendoraTool, StartupOps, WellKeyed, LendoraNames, Ascending, ToolsOf, Skills;
    var x, y := StartupOps(a, local), StartupOps(b, local');
    StartupSkills(a, local);
    StartupSkills(b, local');
    forall s | s in Skills(x) ensures ToolsOf(x, s) == ToolsOf(y, s) {
      StartupTools(a, local, s);
      StartupTools(b, local', s);
    }
  }

  ghost function StartupCard(id: Identity, c: Catalog, local: LocalSchemas, url: string): AgentCard {
    CardOf(id, url, Groups(StartupOps(c, local)))
  }

  lemma MetaIds()
    ensures |SKILL_METAS| == 3
    ensures SKILL_METAS[0].id == SKILL_META && SKILL_METAS[1].id == SKILL_LENDORA && SKILL_METAS[2].id == SKILL_EVM
  {
  }

  lemma {:induction false} ThreeEntries(id: Identity, metas: seq<SkillMeta>, groups: map<string, seq<string>>)
    requires |metas| == 3 && forall k :: 0 <= k < 3 ==> metas[k].id in groups && groups[metas[k].id] != []
    ensures Entries(id, metas, groups) == [
      Entry(id, metas[0], groups[metas[0].id]),
      Entry(id, metas[1], groups[metas[1].id]),
      Entry(id, metas[2], groups[metas[2].id])]
  {
    hide Entry;
    var two, one := metas[..2], metas[..1];
    assert two[..1] == one && one[..0] == [];
    assert Entries(id, one, groups) == [Entry(id, metas[0], groups[metas[0].id])];
    assert Entries(id, two, groups) ==
      [Entry(id, metas[0], groups[metas[0].id]), Entry(id, metas[1], groups[metas[1].id])];
  }

  lemma {:induction false} SkillEntries(id: Identity, metas: seq<SkillMeta>, groups: map<string, seq<string>>,
                                        lendora: seq<string>)
    requires metas == SKILL_METAS && lendora != []
    requires SKILL_META in groups && groups[SKILL_META] == [LIST_TOOLS]
    requires SKILL_LENDORA in groups && groups[SKILL_LENDORA] == lendora
    requires SKILL_EVM in groups && groups[SKILL_EVM] == [BROADCAST, TX_STATUS]
    ensures Entries(id, metas, groups) ==
            [Entry(id, metas[0], [LIST_TOOLS]), Entry(id, metas[1], lendora),
             Entry(id, metas[2], [BROADCAST, TX_STATUS])]
  {
    hide Entry, Entries;
    MetaIds();
    ThreeEntries(id, metas, groups);
  }

  lemma {:induction false} StartupGroups(c: Catalog, local: LocalSchemas) returns (groups: map<string, seq<string>>)
    requires WellKeyed(c) && LendoraNames(c) != {}
    ensures groups == Groups(StartupOps(c, local))
    ensures SKILL_META in groups && groups[SKILL_META] == [LIST_TOOLS]
    ensures SKILL_LENDORA in groups && groups[SKILL_LENDORA] == Sorted(LendoraNames(c)) != []
    ensures SKILL_EVM in groups && groups[SKILL_EVM] == [BROADCAST, TX_STATUS]
  {
    hide IsLendoraTool, StartupOps, WellKeyed, LendoraNames, Ascending, Before;
    groups := Groups(StartupOps(c, local));
    StartupSkills(c, local);
    StartupTools(c, local, SKILL_META);
    StartupTools(c, local, SKILL_LENDORA);
    StartupTools(c, local, SKILL_EVM);
    SkillsDiffer();
    BroadcastComesFirst();
    SortedPair(BROADCAST, TX_STATUS);
    SortedSingle(LIST_TOOLS);
  }

  /**
   * The card, spelled out: the three skills in table order, the Lendora tools sorted. No order of any map, no
   * schema and no description enters it.
   */
  lemma {:induction false} CardDetermined(id: Identity, c: Catalog, local: LocalSchemas, url: string)
    requires WellKeyed(c) && LendoraNames(c) != {}
    ensures StartupCard(id, c, local, url).skills == [
      Entry(id, SKILL_METAS[0], [LIST_TOOLS]),
      Entry(id, SKILL_METAS[1], Sorted(LendoraNames(c))),
      Entry(id, SKILL_METAS[2], [BROADCAST, TX_STATUS])]
  {
    hide IsLendoraTool, StartupOps, WellKeyed, LendoraNames, Ascending, Entry, Entries;
    var groups := StartupGroups(c, local);
    SkillEntries(id, SKILL_METAS, groups, Sorted(LendoraNames(c)));
  }

  // ----- Catalog agreement -----

  /** What list_tools answers after start-up. */
  ghost function PublicTools(c: Catalog, local: LocalSchemas, filter: string): seq<Descriptor> {
    Select(ByName(StartupOps(c, local)), filter)
  }

  /**
   * What list_tools answers, one by one: the two local tools with their schemas, itself without one, and each Lendora
   * tool with the schema of the catalog, as far as the filter lets them through.
   */
  lemma {:induction false} PublicToolsExactly(c: Catalog, local: LocalSchemas, filter: string, d: Descriptor)
    requires WellKeyed(c)
    ensures d in PublicTools(c, local, filter) <==>
            && (filter == "" || filter == d.skill)
            && (|| d == Descriptor(SKILL_EVM, "broadcast_evm_tx", local.broadcast)
                || d == Descriptor(SKILL_EVM, "evm_tx_status", local.status)
                || d == Descriptor(SKILL_META, "list_tools", JNull)
                || (d.tool in LendoraNames(c) && d == Descriptor(SKILL_LENDORA, d.tool, c[d.tool].schema)))
  {
    hide LendoraNames, StartupOps, WellKeyed, Select, ByName;
    StartupIsTotal(c, local);
    ListToolsHas(StartupOps(c, local), filter, d);
  }

  /** The part of a catalog the agent publishes. */
  function LendoraPart(c: Catalog): Catalog {
    map n | n in LendoraNames(c) :: c[n]
  }

  lemma {:induction false} SamePartSameOps(a: Catalog, b: Catalog, local: LocalSchemas)
    requires SameCatalog(LendoraPart(a), LendoraPart(b))
    ensures StartupOps(a, local) == StartupOps(b, local)
  {
    hide IsLendoraTool;
    assert LendoraNames(a) == LendoraPart(a).Keys == LendoraPart(b).Keys == LendoraNames(b);
    forall n | n in LendoraNames(a) ensures a[n].schema == b[n].schema {
      assert LendoraPart(a)[n].schema == LendoraPart(b)[n].schema;
    }
    assert ProxyOps(a, LendoraNames(a)) == ProxyOps(b, LendoraNames(b));
  }

  /** `sameCatalog` is sound: catalogs it accepts give one card, one list_tools answer and one dispatch table. */
  lemma {:induction false} SameCatalogSameFace(id: Identity, a: Catalog, b: Catalog, local: LocalSchemas, url: string,
                                               filter: string)
    requires SameCatalog(a, b)
    ensures StartupOps(a, local) == StartupOps(b, local)
    ensures StartupCard(id, a, local, url) == StartupCard(id, b, local, url)
    ensures PublicTools(a, local, filter) == PublicTools(b, local, filter)
  {
    hide IsLendoraTool, StartupOps, ToolsOf, Skills, Select, ByName, Groups, CardOf;
    assert LendoraNames(a) == LendoraNames(b);
    assert SameCatalog(LendoraPart(a), LendoraPart(b));
    SamePartSameOps(a, b, local);
  }

  /** It does not compare descriptions: the very same public face can come from different catalogs. */
  lemma {:induction false} SameCatalogIgnoresDescriptions(c: Catalog, n: string, other: string)
    requires n in c
    ensures SameCatalog(c, c[n := c[n].(description := other)])
  {
  }

  lemma {:induction false} ListedProxy(c: Catalog, local: LocalSchemas, n: string, schema: Json)
    requires WellKeyed(c)
    ensures Descriptor(SKILL_LENDORA, n, schema) in PublicTools(c, local, "") <==>
            n in LendoraNames(c) && c[n].schema == schema
  {
    hide IsLendoraTool, StartupOps, WellKeyed, Select, ByName, LendoraNames;
    StartupIsTotal(c, local);
    SkillsDiffer();
    ListToolsHas(StartupOps(c, local), "", Descriptor(SKILL_LENDORA, n, schema));
  }

  lemma {:induction false} SameOpsSameTools(a: Catalog, b: Catalog, local: LocalSchemas)
    requires StartupOps(a, local) == StartupOps(b, local)
    ensures PublicTools(a, local, "") == PublicTools(b, local, "")
  {
    hide StartupOps, Select, ByName;
  }

  /** The unfiltered list_tools answer changes exactly when `sameCatalog` rejects the published part of the catalog. */
  lemma {:induction false} ListToolsTellsCatalogsApart(a: Catalog, b: Catalog, local: LocalSchemas)
    requires WellKeyed(a) && WellKeyed(b)
    ensures PublicTools(a, local, "") == PublicTools(b, local, "") <==> SameCatalog(LendoraPart(a), LendoraPart(b))
  {
    hide IsLendoraTool, StartupOps, Select, ByName, PublicTools, WellKeyed;
    if SameCatalog(LendoraPart(a), LendoraPart(b)) {
      SamePartSameOps(a, b, local);
      SameOpsSameTools(a, b, local);
    }
    if PublicTools(a, local, "") == PublicTools(b, local, "") {
      forall n ensures n in LendoraNames(a) <==> n in LendoraNames(b)
        ensures n in LendoraNames(a) ==> a[n].schema == b[n].schema
      {
        if n in LendoraNames(a) {
          ListedProxy(a, local, n, a[n].schema);
          ListedProxy(b, local, n, a[n].schema);
        }
        if n in LendoraNames(b) {
          ListedProxy(a, local, n, b[n].schema);
          ListedProxy(b, local, n, b[n].schema);
        }
      }
      assert LendoraPart(a).Keys == LendoraPart(b).Keys;
    }
  }

  // ----- The whole start-up -----

  /**
   * Start-up from an accepted listing to the card and the first list_tools answer. Both come out as functions of the
   * listing, though every map on the way is walked in an arbitrary order.
   */
  method Start(id: Identity, token: string, dial: Dial, local: LocalSchemas, url: string)
    returns (card: Result<AgentCard, string>, listed: seq<Descriptor>)
    ensures card.Ok? <==> Connect(token, dial).0.Ok? && LendoraNames(Connect(token, dial).0.value.tools) != {}
    ensures card.Ok? ==>
      var c := Connect(token, dial).0.value.tools;
      card.value == StartupCard(id, c, local, url) && listed == PublicTools(c, local, "")
  {
    hide Connect, IsLendoraTool, StartupOps, LendoraNames, Groups, CardOf, Select, ByName, WellKeyed;
    listed := [];
    var reg, duplicate := BuildProxy(local);
    var dialled;
    ghost var events;
    dialled, events := Client.Dialled(token, dial);
    if dialled.Err? {
      return Err(dialled.error), [];
    }
    var client := dialled.value;
    ConnectDisciplined(token, dial);
    assert client.Now().tools == client.tools;
    var error, panics := RegisterCatalog(reg, client, local);
    if error.Some? {
      return Err(error.value), [];
    }
    StartupIsTotal(client.tools, local);
    var built := BuildAgentCardFor(id, url, reg);
    card := Ok(built);
    listed := reg.ListTools("");
  }
}
