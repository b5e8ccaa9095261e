/** The public Agent Card, whose bytes are hashed on chain: it may not depend on the order any map is walked in. */
module Card {
  import opened Text
  import opened Registry

  datatype SkillMeta = SkillMeta(id: string, name: string, desc: string, tags: seq<string>)

  const SKILL_METAS: seq<SkillMeta> := [
    SkillMeta(SKILL_META, "SVP-Chain Agent Self-Description",
              "Discovery of the startup-synchronized tool catalog and argument schemas.",
              ["discovery", "schema", "read-only"]),
    SkillMeta(SKILL_LENDORA, "Lendora Money Market",
              "Lendora tools synchronized from the private DeFi MCP at startup.",
              ["lendora", "lending", "money-market", "mcp"]),
    SkillMeta(SKILL_EVM, "SVP-Chain EVM",
              "Caller-signed EVM transaction broadcast and transaction-status lookup.",
              ["evm", "broadcast", "tx-status"])]

  datatype Identity = Identity(name: string, version: string, description: string, overrides: map<string, string>)

  datatype AgentSkill = AgentSkill(id: string, name: string, description: string, tags: seq<string>)

  datatype AgentCard = AgentCard(
    name: string,
    description: string,
    version: string,
    url: string,
    skills: seq<AgentSkill>)

  function Entry(id: Identity, m: SkillMeta, tools: seq<string>): AgentSkill {
    var desc := if m.id in id.overrides then id.overrides[m.id] else m.desc;
    AgentSkill(m.id, m.name, desc + " Tools: " + Join(tools, ", ") + ".", m.tags)
  }

  function Entries(id: Identity, metas: seq<SkillMeta>, groups: map<string, seq<string>>): seq<AgentSkill> {
    if metas == [] then []
    else
      var m := metas[|metas| - 1];
      Entries(id, metas[..|metas| - 1], groups) +
      if m.id in groups && groups[m.id] != [] then [Entry(id, m, groups[m.id])] else []
  }

  /** The card as a function of the identity and the groups; a skill without tools is left out. */
  function CardOf(id: Identity, url: string, groups: map<string, seq<string>>): AgentCard {
    AgentCard(id.name, id.description, id.version, url + "/invoke", Entries(id, SKILL_METAS, groups))
  }

  /** The loop of `BuildAgentCardFor` over the skill table. */
  method BuildSkills(id: Identity, metas: seq<SkillMeta>, bySkill: map<string, seq<string>>)
    returns (skills: seq<AgentSkill>)
    ensures skills == Entries(id, metas, bySkill)
  {
    skills := [];
    for k := 0 to |metas|
      invariant skills == Entries(id, metas[..k], bySkill)
    {
      var m := metas[k];
      assert metas[..k + 1][..k] == metas[..k];
      var tools := if m.id in bySkill then bySkill[m.id] else [];
      if |tools| == 0 {
        continue;
      }
      var desc := m.desc;
      if m.id in id.overrides {
        desc := id.overrides[m.id];
      }
      desc := desc + " Tools: " + Join(tools, ", ") + ".";
      skills := skills + [AgentSkill(m.id, m.name, desc, m.tags)];
    }
    assert metas[..|metas|] == metas;
  }

  /** `BuildAgentCardFor`: however the registry's maps are walked, the card is that of its sorted groups. */
  method BuildAgentCardFor(id: Identity, url: string, reg: Registry?) returns (card: AgentCard)
    requires reg != null ==> Keyed(reg.ops)
    ensures card == CardOf(id, url, if reg == null then map[] else Groups(reg.ops))
  {
    var bySkill: map<string, seq<string>> := map[];
    if reg != null {
      bySkill := reg.BySkill();
    }
    var skills := BuildSkills(id, SKILL_METAS, bySkill);
    card := AgentCard(id.name, id.description, id.version, url + "/invoke", skills);
  }

  /** A skill is on the card exactly when it is in the skill table and its group is not empty. */
  lemma {:induction false} EntryIff(id: Identity, metas: seq<SkillMeta>, groups: map<string, seq<string>>,
                                    skill: string)
    ensures (exists e :: e in Entries(id, metas, groups) && e.id == skill) <==>
            (exists m :: m in metas && m.id == skill) && skill in groups && groups[skill] != []
  {
    if metas != [] {
      var front, last := metas[..|metas| - 1], metas[|metas| - 1];
      EntryIff(id, front, groups, skill);
      assert forall m :: m in metas <==> m in front || m == last;
      var here := if last.id in groups && groups[last.id] != [] then [Entry(id, last, groups[last.id])] else [];
      assert forall e :: e in Entries(id, metas, groups) <==> e in Entries(id, front, groups) || e in here;
      if last.id == skill && here != [] {
        assert here[0] in here && here[0].id == skill;
      }
    }
  }
}
