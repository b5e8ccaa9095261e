/**
 * The card advertises the tools of a skill inside one text. What a reader can recover from that text, and when it is
 * what can be called.
 */
module CardText {
  import opened Text
  import opened Catalog
  import opened Order
  import opened Registry
  import opened Card
  import opened Startup
  import opened Executor

  const SEPARATOR := ", "

  // ----- Splitting at the separator -----

  /** Where the separator first occurs in `s`; its length if it does not. */
  function SeparatorAt(s: string): (n: nat)
    ensures n == |s| || (n + 2 <= |s| && s[n] == ',' && s[n + 1] == ' ')
    ensures forall k :: 0 <= k < n && k + 1 < |s| ==> !(s[k] == ',' && s[k + 1] == ' ')
  {
    if |s| < 2 then |s| else if s[0] == ',' && s[1] == ' ' then 0 else 1 + SeparatorAt(s[1..])
  }

  predicate HasSeparator(s: string) {
    SeparatorAt(s) < |s|
  }

  function Split(s: string): seq<string>
    decreases |s|
  {
    var n := SeparatorAt(s);
    if n == |s| then [s] else [s[..n]] + Split(s[n + 2..])
  }

  predicate SeparatorHere(s: string, k: nat)
    requires k < |s| - 1
  {
    s[k] == ',' && s[k + 1] == ' '
  }

  lemma {:induction false} NoSeparatorIff(s: string)
    ensures HasSeparator(s) <==> exists k :: 0 <= k < |s| - 1 && SeparatorHere(s, k)
  {
    var n := SeparatorAt(s);
    if n < |s| {
      assert SeparatorHere(s, n);
    }
  }

  /** No part of a split text contains the separator. */
  lemma {:induction false} PartsLackSeparator(s: string, part: string)
    requires part in Split(s)
    ensures !HasSeparator(part)
    decreases |s|
  {
    var n := SeparatorAt(s);
    if n < |s| {
      var head := s[..n];
      NoSeparatorIff(head);
      assert forall k :: 0 <= k < |head| - 1 ==> !SeparatorHere(head, k);
      if part != head {
        PartsLackSeparator(s[n + 2..], part);
      }
    }
  }

  lemma {:induction false} FirstPart(part: string, rest: string)
    requires !HasSeparator(part)
    ensures SeparatorAt(part + SEPARATOR + rest) == |part|
  {
    var s := part + SEPARATOR + rest;
    var n := SeparatorAt(s);
    NoSeparatorIff(part);
    assert s[|part|] == ',' && s[|part| + 1] == ' ';
    forall k | 0 <= k < |part| ensures !(s[k] == ',' && s[k + 1] == ' ') {
      assert k + 1 < |part| ==> !SeparatorHere(part, k);
    }
  }

  lemma {:induction false} SplitUndoesJoin(names: seq<string>)
    requires names != [] && forall k :: 0 <= k < |names| ==> !HasSeparator(names[k])
    ensures Split(Join(names, SEPARATOR)) == names
  {
    hide SeparatorAt;
    if |names| == 1 {
      assert Join(names, SEPARATOR) == names[0];
    } else {
      var rest := Join(names[1..], SEPARATOR);
      var s := names[0] + SEPARATOR + rest;
      FirstPart(names[0], rest);
      SplitUndoesJoin(names[1..]);
      assert s[..|names[0]|] == names[0] && s[|names[0]| + 2..] == rest;
    }
  }

  /** Splitting undoes joining exactly when no name contains the separator. */
  lemma {:induction false} SplitUndoesJoinExactlyWhen(names: seq<string>)
    requires names != []
    ensures Split(Join(names, SEPARATOR)) == names <==> forall k :: 0 <= k < |names| ==> !HasSeparator(names[k])
  {
    if forall k :: 0 <= k < |names| ==> !HasSeparator(names[k]) {
      SplitUndoesJoin(names);
    }
    if Split(Join(names, SEPARATOR)) == names {
      forall k | 0 <= k < |names| ensures !HasSeparator(names[k]) {
        PartsLackSeparator(Join(names, SEPARATOR), names[k]);
      }
    }
  }

  // ----- Reading a card -----

  /** What stands before the tool list in the description of a skill. */
  function Preamble(id: Identity, m: SkillMeta): string {
    (if m.id in id.overrides then id.overrides[m.id] else m.desc) + " Tools: "
  }

  /** The tool list a reader recovers from the description of a skill. */
  function ToolsRead(id: Identity, m: SkillMeta, description: string): seq<string> {
    var before := Preamble(id, m);
    if |before| < |description| && before <= description then Split(description[|before|..|description| - 1]) else []
  }

  lemma {:induction false} EntryReads(id: Identity, m: SkillMeta, tools: seq<string>)
    ensures ToolsRead(id, m, Entry(id, m, tools).description) == Split(Join(tools, SEPARATOR))
  {
    hide Split, Join;
    var before, list := Preamble(id, m), Join(tools, SEPARATOR);
    var description := Entry(id, m, tools).description;
    assert description == before + list + ".";
    assert description[|before|..|description| - 1] == list;
  }

  predicate Advertises(id: Identity, m: SkillMeta, e: AgentSkill, skill: string, tool: string) {
    m.id == skill && e.id == skill && tool in ToolsRead(id, m, e.description)
  }

  /** The card advertises the tool under the skill. */
  predicate OnCard(id: Identity, card: AgentCard, skill: string, tool: string) {
    exists m, e :: m in SKILL_METAS && e in card.skills && Advertises(id, m, e, skill, tool)
  }

  /** The entries of a card are those of the skills that have tools. */
  lemma {:induction false} EntriesAre(id: Identity, metas: seq<SkillMeta>, groups: map<string, seq<string>>,
                                      e: AgentSkill)
    ensures e in Entries(id, metas, groups) <==>
            exists m :: m in metas && m.id in groups && groups[m.id] != [] && e == Entry(id, m, groups[m.id])
  {
    hide Entry;
    if metas != [] {
      var front, last := metas[..|metas| - 1], metas[|metas| - 1];
      EntriesAre(id, front, groups, e);
      assert forall m :: m in metas <==> m in front || m == last;
    }
  }

  lemma {:induction false} MetasDiffer(m: SkillMeta, m': SkillMeta)
    requires m in SKILL_METAS && m' in SKILL_METAS && m.id == m'.id
    ensures m == m'
  {
    SkillsDiffer();
  }

  lemma {:induction false} MetaOf(skill: string) returns (m: SkillMeta)
    requires skill in {SKILL_META, SKILL_LENDORA, SKILL_EVM}
    ensures m in SKILL_METAS && m.id == skill
  {
    InTheTable(skill);
    m :| m in SKILL_METAS && m.id == skill;
  }

  lemma {:induction false} EntryId(id: Identity, m: SkillMeta, tools: seq<string>)
    ensures Entry(id, m, tools).id == m.id
  {
  }

  /** What a reader finds under a skill of the card is its group, joined and split again. */
  lemma {:induction false} OnCardIff(id: Identity, url: string, groups: map<string, seq<string>>, skill: string,
                                     tool: string)
    requires forall s :: s in groups ==> s in {SKILL_META, SKILL_LENDORA, SKILL_EVM} && groups[s] != []
    ensures OnCard(id, CardOf(id, url, groups), skill, tool) <==>
            skill in groups && tool in Split(Join(groups[skill], SEPARATOR))
  {
    hide Entries, Entry, Split, ToolsRead;
    var card := CardOf(id, url, groups);
    if skill in groups {
      var m := MetaOf(skill);
      var e := Entry(id, m, groups[skill]);
      EntriesAre(id, SKILL_METAS, groups, e);
      EntryReads(id, m, groups[skill]);
      assert e.id == skill by { EntryId(id, m, groups[skill]); }
      if tool in Split(Join(groups[skill], SEPARATOR)) {
        assert Advertises(id, m, e, skill, tool);
      }
    }
    if OnCard(id, card, skill, tool) {
      var m, e :| m in SKILL_METAS && e in card.skills && Advertises(id, m, e, skill, tool);
      EntriesAre(id, SKILL_METAS, groups, e);
      var m' :| m' in SKILL_METAS && m'.id in groups && groups[m'.id] != [] && e == Entry(id, m', groups[m'.id]);
      EntryId(id, m', groups[m'.id]);
      MetasDiffer(m, m');
      EntryReads(id, m, groups[skill]);
    }
  }

  lemma {:induction false} NoComma(s: string)
    requires ',' !in s
    ensures !HasSeparator(s)
  {
    assert SeparatorAt(s) == |s|;
  }

  lemma OwnNamesLackSeparator()
    ensures !HasSeparator(BROADCAST) && !HasSeparator(TX_STATUS) && !HasSeparator(LIST_TOOLS)
  {
    hide HasSeparator;
    assert ',' !in BROADCAST;
    assert ',' !in TX_STATUS;
    assert ',' !in LIST_TOOLS;
    NoComma(BROADCAST);
    NoComma(TX_STATUS);
    NoComma(LIST_TOOLS);
  }

  /** No published Lendora name contains the separator. */
  predicate SeparatorFree(c: Catalog) {
    forall n :: n in LendoraNames(c) ==> !HasSeparator(n)
  }

  lemma {:induction false} GroupsAreProper(c: Catalog, local: LocalSchemas, skill: string)
    requires WellKeyed(c) && skill in Groups(StartupOps(c, local))
    ensures skill in {SKILL_META, SKILL_LENDORA, SKILL_EVM} && Groups(StartupOps(c, local))[skill] != []
    ensures Elements(Groups(StartupOps(c, local))[skill]) == StartupGroup(c, skill)
  {
    hide IsLendoraTool, StartupOps, WellKeyed, Ascending, LendoraNames, StartupGroup;
    var ops := StartupOps(c, local);
    var t :| t in ops && ops[t].skill == skill;
    StartupIsNamed(c, local, t);
    GroupHas(ops, skill, t);
    StartupTools(c, local, skill);
  }

  lemma {:induction false} OnStartupCard(id: Identity, c: Catalog, local: LocalSchemas, url: string, skill: string,
                                         tool: string)
    requires WellKeyed(c)
    ensures var groups := Groups(StartupOps(c, local));
      OnCard(id, StartupCard(id, c, local, url), skill, tool) <==>
      skill in groups && tool in Split(Join(groups[skill], SEPARATOR))
  {
    hide IsLendoraTool, StartupOps, WellKeyed, LendoraNames, Groups, OnCard, Split, CardOf;
    var groups := Groups(StartupOps(c, local));
    forall s | s in groups ensures s in {SKILL_META, SKILL_LENDORA, SKILL_EVM} && groups[s] != [] {
      GroupsAreProper(c, local, s);
    }
    OnCardIff(id, url, groups, skill, tool);
  }

  lemma {:induction false} GroupSplits(c: Catalog, local: LocalSchemas, skill: string)
    requires WellKeyed(c) && SeparatorFree(c) && skill in Groups(StartupOps(c, local))
    ensures var group := Groups(StartupOps(c, local))[skill]; Split(Join(group, SEPARATOR)) == group
  {
    hide IsLendoraTool, StartupOps, WellKeyed, LendoraNames, Groups, Split, HasSeparator;
    var group := Groups(StartupOps(c, local))[skill];
    GroupsAreProper(c, local, skill);
    OwnNamesLackSeparator();
    forall k | 0 <= k < |group| ensures !HasSeparator(group[k]) {
      assert group[k] in Elements(group);
    }
    SplitUndoesJoinExactlyWhen(group);
  }

  /**
   * What the card says is what can be called exactly when no published Lendora name contains the separator: then for
   * every skill and tool, the tool is among those read off the card under the skill if and only if a request without
   * an intent naming both is dispatched.
   */
  lemma {:induction false} CardTellsTruthExactlyWhen(id: Identity, c: Catalog, local: LocalSchemas, url: string)
    requires WellKeyed(c)
    ensures (forall skill, tool ::
               OnCard(id, StartupCard(id, c, local, url), skill, tool) <==> Callable(StartupOps(c, local), skill, tool))
            <==> SeparatorFree(c)
  {
    hide IsLendoraTool, StartupOps, WellKeyed, LendoraNames, Groups, OnCard, Callable, Split, CardOf, HasSeparator;
    var ops, card := StartupOps(c, local), StartupCard(id, c, local, url);
    if SeparatorFree(c) {
      forall skill, tool ensures OnCard(id, card, skill, tool) <==> Callable(ops, skill, tool) {
        OnStartupCard(id, c, local, url, skill, tool);
        CallableIff(c, local, skill, tool);
        if skill in Groups(ops) {
          GroupSplits(c, local, skill);
        }
      }
    } else {
      var n :| n in LendoraNames(c) && HasSeparator(n);
      OnStartupCard(id, c, local, url, SKILL_LENDORA, n);
      CallableIff(c, local, SKILL_LENDORA, n);
      StartupIsTotal(c, local);
      assert Callable(ops, SKILL_LENDORA, n);
      if n in Split(Join(Groups(ops)[SKILL_LENDORA], SEPARATOR)) {
        PartsLackSeparator(Join(Groups(ops)[SKILL_LENDORA], SEPARATOR), n);
      }
      assert !OnCard(id, card, SKILL_LENDORA, n);
    }
  }

  // ----- The card in full -----

  /** The entry of a skill whose tools are written like this. */
  function SkillOnCard(id: Identity, m: SkillMeta, list: string): AgentSkill {
    var about := if m.id in id.overrides then id.overrides[m.id] else m.desc;
    AgentSkill(m.id, m.name, about + " Tools: " + list + ".", m.tags)
  }

  lemma {:induction false} EntryInFull(id: Identity, m: SkillMeta, tools: seq<string>)
    ensures Entry(id, m, tools) == SkillOnCard(id, m, Join(tools, ", "))
  {
    hide Join;
  }

  lemma OwnLists()
    ensures Join([LIST_TOOLS], ", ") == "list_tools"
    ensures Join([BROADCAST, TX_STATUS], ", ") == "broadcast_evm_tx, evm_tx_status"
  {
    assert [BROADCAST, TX_STATUS][1..] == [TX_STATUS];
    assert BROADCAST + ", " + TX_STATUS == "broadcast_evm_tx, evm_tx_status";
  }

  lemma {:induction false} CardIsItsSkills(id: Identity, c: Catalog, local: LocalSchemas, url: string)
    ensures var card := StartupCard(id, c, local, url);
      card == AgentCard(id.name, id.description, id.version, url + "/invoke", card.skills)
  {
    hide StartupOps, Groups, Entries;
  }

  /** The card of every start-up, in full. */
  lemma {:induction false} CardInFull(id: Identity, c: Catalog, local: LocalSchemas, url: string)
    requires WellKeyed(c) && LendoraNames(c) != {}
    ensures StartupCard(id, c, local, url) == AgentCard(id.name, id.description, id.version, url + "/invoke", [
              SkillOnCard(id, SKILL_METAS[0], "list_tools"),
              SkillOnCard(id, SKILL_METAS[1], Join(Sorted(LendoraNames(c)), ", ")),
              SkillOnCard(id, SKILL_METAS[2], "broadcast_evm_tx, evm_tx_status")])
  {
    hide WellKeyed, LendoraNames, StartupCard, Entry, Ascending, Join, SkillOnCard;
    CardDetermined(id, c, local, url);
    CardIsItsSkills(id, c, local, url);
    OwnLists();
    EntryInFull(id, SKILL_METAS[0], [LIST_TOOLS]);
    EntryInFull(id, SKILL_METAS[1], Sorted(LendoraNames(c)));
    EntryInFull(id, SKILL_METAS[2], [BROADCAST, TX_STATUS]);
  }

  // ----- What the hash of a card tells -----

  /** The Lendora names as the card writes them. */
  ghost function ListText(c: Catalog): string {
    Join(Sorted(LendoraNames(c)), SEPARATOR)
  }

  lemma {:induction false} EntryIsItsList(id: Identity, m: SkillMeta, x: seq<string>, y: seq<string>)
    ensures Entry(id, m, x) == Entry(id, m, y) <==> Join(x, SEPARATOR) == Join(y, SEPARATOR)
  {
    hide Join;
    var before := Preamble(id, m);
    var dx, dy := Entry(id, m, x).description, Entry(id, m, y).description;
    assert dx == before + Join(x, SEPARATOR) + "." && dy == before + Join(y, SEPARATOR) + ".";
    assert dx[|before|..|dx| - 1] == Join(x, SEPARATOR) && dy[|before|..|dy| - 1] == Join(y, SEPARATOR);
  }

  /** Two start-ups serve the same card exactly when their sorted Lendora names join to the same text. */
  lemma {:induction false} EqualCardsExactlyWhen(id: Identity, a: Catalog, b: Catalog, local: LocalSchemas,
                                                 local': LocalSchemas, url: string)
    requires WellKeyed(a) && WellKeyed(b) && LendoraNames(a) != {} && LendoraNames(b) != {}
    ensures StartupCard(id, a, local, url) == StartupCard(id, b, local', url) <==> ListText(a) == ListText(b)
  {
    hide WellKeyed, LendoraNames, StartupCard, Entry, Ascending, Join;
    var x, y := Sorted(LendoraNames(a)), Sorted(LendoraNames(b));
    CardDetermined(id, a, local, url);
    CardDetermined(id, b, local', url);
    CardIsItsSkills(id, a, local, url);
    CardIsItsSkills(id, b, local', url);
    EntryIsItsList(id, SKILL_METAS[1], x, y);
  }

  lemma {:induction false} NamesFromText(c: Catalog)
    requires LendoraNames(c) != {} && SeparatorFree(c)
    ensures Elements(Split(ListText(c))) == LendoraNames(c)
  {
    hide LendoraNames, Split, Ascending, HasSeparator, Join;
    var names := Sorted(LendoraNames(c));
    forall k | 0 <= k < |names| ensures !HasSeparator(names[k]) {
      assert names[k] in Elements(names);
    }
    SplitUndoesJoin(names);
  }

  /**
   * Equal names always give equal cards; equal cards give equal names when no name of either catalog contains the
   * separator.
   */
  lemma {:induction false} EqualCardsEqualNames(id: Identity, a: Catalog, b: Catalog, local: LocalSchemas,
                                                local': LocalSchemas, url: string)
    requires WellKeyed(a) && WellKeyed(b) && LendoraNames(a) != {} && LendoraNames(b) != {}
    ensures LendoraNames(a) == LendoraNames(b) ==>
      StartupCard(id, a, local, url) == StartupCard(id, b, local', url)
    ensures SeparatorFree(a) && SeparatorFree(b) ==>
      (StartupCard(id, a, local, url) == StartupCard(id, b, local', url) <==> LendoraNames(a) == LendoraNames(b))
  {
    hide WellKeyed, LendoraNames, StartupCard, HasSeparator, Join;
    EqualCardsExactlyWhen(id, a, b, local, local', url);
    if SeparatorFree(a) && SeparatorFree(b) {
      NamesFromText(a);
      NamesFromText(b);
    }
  }

  predicate LendoraName(n: string) {
    n != "" && Trimmed(n) && HasPrefix(n, LENDORA)
  }

  lemma {:induction false} LendoraNamesAre(c: Catalog, n: string)
    requires WellKeyed(c)
    ensures n in LendoraNames(c) <==> n in c && LendoraName(n)
  {
    hide TrimSpace;
    if n in c {
      TrimmedIff(n);
    }
  }

  lemma {:induction false} JoinsToLendora(x: string, y: string)
    requires LendoraName(x) && LendoraName(y)
    ensures LendoraName(x + SEPARATOR + y)
  {
    var xy := x + SEPARATOR + y;
    assert xy[0] == x[0] && xy[|xy| - 1] == y[|y| - 1];
    assert xy[..|LENDORA|] == x[..|LENDORA|];
  }

  /** Joined Lendora names are a Lendora name again. */
  lemma {:induction false} JoinIsLendora(names: seq<string>)
    requires names != [] && forall k :: 0 <= k < |names| ==> LendoraName(names[k])
    ensures LendoraName(Join(names, SEPARATOR))
  {
    if |names| > 1 {
      var rest := Join(names[1..], SEPARATOR);
      JoinIsLendora(names[1..]);
      JoinsToLendora(names[0], rest);
    }
  }

  lemma {:induction false} BeforeLonger(x: string, y: string, z: string)
    requires Before(x, y) && y <= z
    ensures Before(x, z)
  {
    if x != "" && x[0] == y[0] {
      BeforeLonger(x[1..], y[1..], z[1..]);
    }
  }

  /** The name can be read as two Lendora names in order, joined by the separator at `k`. */
  predicate DividesAt(n: string, k: nat) {
    && k + 2 <= |n| && n[k] == ',' && n[k + 1] == ' '
    && LendoraName(n[..k]) && LendoraName(n[k + 2..]) && Before(n[..k], n[k + 2..])
  }

  predicate Divides(n: string) {
    exists k :: 0 <= k < |n| && DividesAt(n, k)
  }

  /** One published name, and no way to read it as two. */
  predicate Unmistakable(names: set<string>) {
    |names| == 1 && forall n :: n in names ==> !Divides(n)
  }

  lemma {:induction false} JoinStarts(names: seq<string>)
    requires names != []
    ensures names[0] <= Join(names, SEPARATOR)
  {
  }

  /** The sorted names of another set of at least two join to a name that divides. */
  lemma {:induction false} JoinDivides(names: seq<string>)
    requires |names| >= 2 && Ascending(names) && forall k :: 0 <= k < |names| ==> LendoraName(names[k])
    ensures Divides(Join(names, SEPARATOR))
  {
    hide LendoraName, Before;
    var x, y := names[0], Join(names[1..], SEPARATOR);
    var xy := x + SEPARATOR + y;
    JoinIsLendora(names[1..]);
    assert names[1] <= y by { JoinStarts(names[1..]); }
    BeforeLonger(x, names[1], y);
    assert xy[..|x|] == x && xy[|x| + 2..] == y;
    assert DividesAt(xy, |x|);
  }

  lemma {:induction false} OnlyElement(names: set<string>) returns (n: string)
    requires |names| == 1
    ensures names == {n}
  {
    n :| n in names;
    SubsetOfSameSize({n}, names);
  }

  /** A name that does not divide is the text of no other list of names. */
  lemma {:induction false} TextOfNoOther(a: Catalog, b: Catalog)
    requires WellKeyed(a) && WellKeyed(b) && LendoraNames(b) != {}
    requires Unmistakable(LendoraNames(a)) && ListText(a) == ListText(b)
    ensures LendoraNames(a) == LendoraNames(b)
  {
    hide WellKeyed, LendoraNames, Ascending, LendoraName, Divides;
    var n := OnlyElement(LendoraNames(a));
    SortedSingle(n);
    assert ListText(a) == n;
    var names := Sorted(LendoraNames(b));
    if |names| >= 2 {
      forall k | 0 <= k < |names| ensures LendoraName(names[k]) {
        assert names[k] in Elements(names);
        LendoraNamesAre(b, names[k]);
      }
      JoinDivides(names);
    } else {
      assert names[0] in Elements(names);
      var m := OnlyElement(LendoraNames(b));
      SortedSingle(m);
    }
  }

  lemma {:induction false} Divided(n: string) returns (x: string, y: string)
    requires Divides(n)
    ensures LendoraName(x) && LendoraName(y) && Before(x, y) && n == x + SEPARATOR + y && |x| < |n|
  {
    hide LendoraName, Before;
    var k :| 0 <= k < |n| && DividesAt(n, k);
    x, y := n[..k], n[k + 2..];
    assert n[k..k + 2] == SEPARATOR;
    assert n == n[..k] + n[k..k + 2] + n[k + 2..];
  }

  lemma {:induction false} JoinedSingle(n: string)
    ensures Join([n], SEPARATOR) == n
  {
  }

  /** A catalog of these names, each with the same schema. */
  function Offering(names: set<string>, schema: Json): Catalog {
    map n | n in names :: Tool(n, "", schema)
  }

  lemma {:induction false} OfferingIsAccepted(names: set<string>, schema: Json)
    requires schema != JNull && names != {} && forall n :: n in names ==> LendoraName(n)
    ensures WellKeyed(Offering(names, schema)) && LendoraNames(Offering(names, schema)) == names
  {
    hide TrimSpace;
    var c := Offering(names, schema);
    var n :| n in names;
    assert n in c;
    forall n | n in names ensures IsLendoraTool(n) {
      TrimmedIff(n);
    }
  }

  lemma {:induction false} JoinedPair(x: string, y: string)
    ensures Join([x, y], SEPARATOR) == x + SEPARATOR + y && Join([x + SEPARATOR + y], SEPARATOR) == x + SEPARATOR + y
  {
    assert [x, y][1..] == [y];
  }

  /** Some accepted catalog with other Lendora names has the same text. */
  lemma {:induction false} AnotherWithText(c: Catalog) returns (b: Catalog)
    requires WellKeyed(c) && LendoraNames(c) != {} && !Unmistakable(LendoraNames(c))
    ensures WellKeyed(b) && LendoraNames(b) != {} && LendoraNames(b) != LendoraNames(c) && ListText(b) == ListText(c)
  {
    hide WellKeyed, LendoraNames, Ascending, LendoraName, Divides, Join, Offering, Before;
    var names, schema := Sorted(LendoraNames(c)), JObject(map[]);
    forall k | 0 <= k < |names| ensures LendoraName(names[k]) {
      assert names[k] in Elements(names);
      LendoraNamesAre(c, names[k]);
    }
    if |names| >= 2 {
      var text := ListText(c);
      JoinIsLendora(names);
      b := Offering({text}, schema);
      OfferingIsAccepted({text}, schema);
      SortedSingle(text);
      JoinedSingle(text);
      assert |LendoraNames(b)| == 1;
    } else {
      var n := OnlyElement(LendoraNames(c));
      SortedSingle(n);
      JoinedSingle(n);
      var x, y := Divided(n);
      b := Offering({x, y}, schema);
      OfferingIsAccepted({x, y}, schema);
      SortedPair(x, y);
      JoinedPair(x, y);
      assert x in LendoraNames(b) && x !in LendoraNames(c);
    }
  }

  /** A start-up with `b` succeeds and serves the card of `c`. */
  ghost predicate SameCard(id: Identity, b: Catalog, local': LocalSchemas, c: Catalog, local: LocalSchemas,
                           url: string)
  {
    && WellKeyed(b) && LendoraNames(b) != {}
    && StartupCard(id, b, local', url) == StartupCard(id, c, local, url)
  }

  /**
   * When a card identifies the published names: every other catalog with the same card has the same Lendora names
   * exactly when the catalog publishes a single one, and that one cannot be read as two.
   */
  lemma {:induction false} CardIdentifiesExactlyWhen(id: Identity, c: Catalog, local: LocalSchemas, url: string)
    requires WellKeyed(c) && LendoraNames(c) != {}
    ensures (forall b, local' :: SameCard(id, b, local', c, local, url) ==> LendoraNames(b) == LendoraNames(c)) <==>
            Unmistakable(LendoraNames(c))
  {
    hide WellKeyed, LendoraNames, StartupCard, Unmistakable, ListText;
    if Unmistakable(LendoraNames(c)) {
      forall b, local' | SameCard(id, b, local', c, local, url) ensures LendoraNames(b) == LendoraNames(c) {
        EqualCardsExactlyWhen(id, b, c, local', local, url);
        TextOfNoOther(c, b);
      }
    } else {
      var b := AnotherWithText(c);
      EqualCardsExactlyWhen(id, b, c, local, local, url);
      assert SameCard(id, b, local, c, local, url);
    }
  }

  lemma {:induction false} CallableLendora(c: Catalog, local: LocalSchemas, n: string)
    requires WellKeyed(c) && LendoraName(n)
    ensures Callable(StartupOps(c, local), SKILL_LENDORA, n) <==> n in LendoraNames(c)
  {
    hide LendoraNames, StartupOps, TrimSpace, WellKeyed;
    TrimmedIff(n);
    LendoraIsNotLocal(n);
    StartupIsTotal(c, local);
    SkillsAreNamed();
  }

  /** A catalog of two names and one of their joined name have the same card. */
  lemma {:induction false} CardsOfJoined(id: Identity, a: Catalog, b: Catalog, local: LocalSchemas, url: string,
                                         x: string, y: string)
    requires WellKeyed(a) && WellKeyed(b) && Before(x, y)
    requires LendoraNames(a) == {x, y} && LendoraNames(b) == {x + SEPARATOR + y}
    ensures StartupCard(id, a, local, url) == StartupCard(id, b, local, url)
  {
    hide WellKeyed, LendoraNames, StartupCard, Ascending, Before, Join;
    SortedPair(x, y);
    SortedSingle(x + SEPARATOR + y);
    JoinedPair(x, y);
    EqualCardsExactlyWhen(id, a, b, local, local, url);
  }

  /** Any two names can be told from their joined name by calling them, and not by the card. */
  lemma {:induction false} JoinedNamesShareCard(id: Identity, local: LocalSchemas, url: string, schema: Json,
                                                x: string, y: string)
    requires schema != JNull && LendoraName(x) && LendoraName(y) && Before(x, y)
    ensures var a, b := Offering({x, y}, schema), Offering({x + SEPARATOR + y}, schema);
      && WellKeyed(a) && WellKeyed(b)
      && StartupCard(id, a, local, url) == StartupCard(id, b, local, url)
      && Callable(StartupOps(a, local), SKILL_LENDORA, x) && !Callable(StartupOps(b, local), SKILL_LENDORA, x)
  {
    hide LendoraNames, StartupOps, CardOf, Groups, WellKeyed, Before, Offering, Callable;
    var a, b := Offering({x, y}, schema), Offering({x + SEPARATOR + y}, schema);
    JoinsToLendora(x, y);
    OfferingIsAccepted({x, y}, schema);
    OfferingIsAccepted({x + SEPARATOR + y}, schema);
    CardsOfJoined(id, a, b, local, url, x, y);
    assert |x + SEPARATOR + y| != |x|;
    CallableLendora(a, local, x);
    CallableLendora(b, local, x);
  }

  lemma {:induction false} BeforeAfterPrefix(p: string, a: string, b: string)
    requires Before(a, b)
    ensures Before(p + a, p + b)
  {
    if p == "" {
      assert p + a == a && p + b == b;
    } else {
      BeforeAfterPrefix(p[1..], a, b);
      assert (p + a)[1..] == p[1..] + a && (p + b)[1..] == p[1..] + b;
    }
  }

  lemma LettersDiffer()
    ensures "lendora_a" != "lendora_b" && Before("lendora_a", "lendora_b")
  {
    BeforeAfterPrefix("lendora_", "a", "b");
    assert "lendora_" + "a" == "lendora_a" && "lendora_" + "b" == "lendora_b";
    BeforeIsTotal("lendora_a", "lendora_b");
  }

  /** The failing case: two catalogs with different tools under one card. */
  lemma {:induction false} OneCardTwoCatalogs(id: Identity, local: LocalSchemas, url: string, schema: Json)
    requires schema != JNull
    ensures var x, y, xy := "lendora_a", "lendora_b", "lendora_a, lendora_b";
      var a, b := Offering({x, y}, schema), Offering({xy}, schema);
      && WellKeyed(a) && WellKeyed(b)
      && StartupCard(id, a, local, url) == StartupCard(id, b, local, url)
      && Callable(StartupOps(a, local), SKILL_LENDORA, x) && !Callable(StartupOps(b, local), SKILL_LENDORA, x)
  {
    hide LendoraNames, StartupOps, CardOf, Groups, WellKeyed, Before, Offering, Callable;
    LettersDiffer();
    assert "lendora_a, lendora_b" == "lendora_a" + SEPARATOR + "lendora_b";
    JoinedNamesShareCard(id, local, url, schema, "lendora_a", "lendora_b");
  }
}
