/** The public operations: their registry, and the two ways it is read, by name and by skill. */
module Registry {
  import opened Text
  import opened Catalog
  import opened Order

  const SKILL_META := "svpchain-meta"
  const SKILL_LENDORA := "svpchain-lendora"
  const SKILL_EVM := "svpchain-evm"
  const LIST_TOOLS := "list_tools"

  /** What an operation runs when called. */
  datatype Target = Private(tool: string) | Local(tool: string) | SelfDescription

  datatype Op = Op(skill: string, tool: string, schema: Json, target: Target)

  type Ops = map<string, Op>

  datatype Descriptor = Descriptor(skill: string, tool: string, schema: Json)

  function DuplicateError(tool: string): string {
    "toolbridge: duplicate tool " + Quoted(tool)
  }

  predicate Keyed(ops: Ops) {
    forall t :: t in ops ==> ops[t].tool == t
  }

  // ----- What readers of a registry see, whatever order its map is walked in -----

  function ToolsOf(ops: Ops, skill: string): set<string> {
    set t | t in ops && ops[t].skill == skill
  }

  function Skills(ops: Ops): set<string> {
    set t | t in ops :: ops[t].skill
  }

  /** Tool names by skill, each group ascending. */
  ghost function Groups(ops: Ops): map<string, seq<string>> {
    map s | s in Skills(ops) :: Sorted(ToolsOf(ops, s))
  }

  /** The operations called `names`, in that order. */
  function Named(ops: Ops, names: seq<string>): seq<Op>
    requires forall k :: 0 <= k < |names| ==> names[k] in ops
  {
    seq(|names|, k requires 0 <= k < |names| => ops[names[k]])
  }

  lemma {:induction false} SortedNamesAreKnown(ops: Ops)
    ensures forall k :: 0 <= k < |Sorted(ops.Keys)| ==> Sorted(ops.Keys)[k] in ops
  {
    assert forall k :: 0 <= k < |Sorted(ops.Keys)| ==> Sorted(ops.Keys)[k] in Elements(Sorted(ops.Keys));
  }

  /** All operations by ascending name. */
  ghost function ByName(ops: Ops): seq<Op> {
    SortedNamesAreKnown(ops);
    Named(ops, Sorted(ops.Keys))
  }

  function Describe(op: Op): Descriptor {
    Descriptor(op.skill, op.tool, op.schema)
  }

  /** The descriptors a list_tools request with this skill filter selects; no filter selects all. */
  function Select(list: seq<Op>, skill: string): seq<Descriptor> {
    if list == [] then []
    else
      var last := list[|list| - 1];
      Select(list[..|list| - 1], skill) + if skill != "" && skill != last.skill then [] else [Describe(last)]
  }

  /** The groups of the skills in `rest` are still in walking order, the others sorted. */
  ghost predicate HalfSorted(ops: Ops, rest: set<string>, out: map<string, seq<string>>) {
    && rest <= out.Keys == Skills(ops)
    && (forall s :: s in rest ==> Distinct(out[s]) && Elements(out[s]) == ToolsOf(ops, s))
    && (forall s :: s in out && s !in rest ==> out[s] == Sorted(ToolsOf(ops, s)))
  }

  lemma {:induction false} SortsNext(ops: Ops, rest: set<string>, out: map<string, seq<string>>, skill: string)
    requires HalfSorted(ops, rest, out) && skill in rest
    ensures skill in out && Distinct(out[skill])
    ensures HalfSorted(ops, rest - {skill}, out[skill := Sorted(Elements(out[skill]))])
  {
    hide Distinct, ToolsOf, Skills, Ascending, Elements;
  }

  lemma {:induction false} AllSorted(ops: Ops, out: map<string, seq<string>>)
    requires HalfSorted(ops, {}, out)
    ensures out == Groups(ops)
  {
    hide Distinct, ToolsOf, Skills, Ascending, Elements;
  }

  function ToolsAmong(ops: Ops, done: set<string>, skill: string): set<string> {
    set t | t in done && t in ops && ops[t].skill == skill
  }

  /** The groups made so far hold exactly the tools walked so far. */
  predicate Collected(ops: Ops, done: set<string>, out: map<string, seq<string>>) {
    && done <= ops.Keys
    && out.Keys == (set t | t in done && t in ops :: ops[t].skill)
    && forall s :: s in out ==> Distinct(out[s]) && Elements(out[s]) == ToolsAmong(ops, done, s)
  }

  lemma NothingIsDistinct()
    ensures Distinct<string>([]) && Elements<string>([]) == {}
  {
  }

  lemma {:induction false} CollectOne(ops: Ops, done: set<string>, out: map<string, seq<string>>, tool: string)
    requires Collected(ops, done, out) && tool in ops && tool !in done
    ensures var skill := ops[tool].skill;
      Collected(ops, done + {tool}, out[skill := (if skill in out then out[skill] else []) + [tool]])
  {
    hide Distinct;
    var skill := ops[tool].skill;
    var group := if skill in out then out[skill] else [];
    var next := out[skill := group + [tool]];
    assert Distinct(group) && tool !in group && Elements(group) == ToolsAmong(ops, done, skill) by {
      NothingIsDistinct();
      if skill in out {
        FoundInElements(group, tool);
      } else {
        assert ToolsAmong(ops, done, skill) == {};
      }
    }
    ElementsAppend(group, tool);
    forall s | s in next
      ensures Distinct(next[s]) && Elements(next[s]) == ToolsAmong(ops, done + {tool}, s)
    {
      if s == skill {
        assert ToolsAmong(ops, done + {tool}, s) == ToolsAmong(ops, done, s) + {tool};
      } else {
        assert ToolsAmong(ops, done + {tool}, s) == ToolsAmong(ops, done, s);
      }
    }
  }

  class Registry {
    var ops: Ops

    constructor ()
      ensures ops == map[]
    {
      ops := map[];
    }

    method AddProxy(skill: string, tool: string, schema: Json) returns (error: Option<string>)
      modifies this
      ensures error == (if tool in old(ops) then Some(DuplicateError(tool)) else None)
      ensures ops == if tool in old(ops) then old(ops) else old(ops)[tool := Op(skill, tool, schema, Private(tool))]
    {
      if tool in ops {
        return Some(DuplicateError(tool));
      }
      ops := ops[tool := Op(skill, tool, schema, Private(tool))];
      return None;
    }

    method Add(skill: string, tool: string, schema: Json, target: Target) returns (error: Option<string>)
      modifies this
      ensures error == (if tool in old(ops) then Some(DuplicateError(tool)) else None)
      ensures ops == if tool in old(ops) then old(ops) else old(ops)[tool := Op(skill, tool, schema, target)]
    {
      if tool in ops {
        return Some(DuplicateError(tool));
      }
      ops := ops[tool := Op(skill, tool, schema, target)];
      return None;
    }

    /** `(*Registry).RegisterMeta` panics when the name is taken; `panics` reports that. */
    method RegisterMeta() returns (panics: bool)
      modifies this
      ensures panics <==> LIST_TOOLS in old(ops)
      ensures ops ==
        if panics then old(ops) else old(ops)[LIST_TOOLS := Op(SKILL_META, LIST_TOOLS, JNull, SelfDescription)]
    {
      var error := Add(SKILL_META, LIST_TOOLS, JNull, SelfDescription);
      panics := error.Some?;
    }

    method Lookup(tool: string) returns (op: Option<Op>)
      ensures op == if tool in ops then Some(ops[tool]) else None
    {
      op := if tool in ops then Some(ops[tool]) else None;
    }

    /** The first loop of `List`: each key once, in whatever order the map yields them. */
    method WalkedNames() returns (names: seq<string>)
      ensures Distinct(names) && Elements(names) == ops.Keys
    {
      names := [];
      var rest := ops.Keys;
      NothingIsDistinct();
      hide Distinct, Elements;
      while rest != {}
        invariant rest <= ops.Keys && Distinct(names) && Elements(names) == ops.Keys - rest
        decreases |rest|
      {
        var tool :| tool in rest;
        assert tool !in names by { FoundInElements(names, tool); }
        ElementsAppend(names, tool);
        names := names + [tool];
        rest := rest - {tool};
      }
    }

    method List() returns (out: seq<Op>)
      requires Keyed(ops)
      ensures out == ByName(ops)
    {
      hide Ascending, Distinct, Elements, Sorted, Keyed;
      var names := WalkedNames();
      var sorted := SortNames(names);
      SortedNamesAreKnown(ops);
      out := Named(ops, sorted);
    }

    /** The handler of list_tools. */
    method ListTools(skill: string) returns (out: seq<Descriptor>)
      requires Keyed(ops)
      ensures out == Select(ByName(ops), skill)
    {
      hide ByName;
      out := [];
      var all := List();
      for k := 0 to |all|
        invariant out == Select(all[..k], skill)
      {
        var op := all[k];
        assert all[..k + 1][..k] == all[..k];
        if skill != "" && skill != op.skill {
          continue;
        }
        out := out + [Descriptor(op.skill, op.tool, op.schema)];
      }
      assert all[..|all|] == all;
    }

    /** The first loop of `BySkill`: names by skill, in whatever order the map yields them. */
    method Grouped() returns (out: map<string, seq<string>>)
      requires Keyed(ops)
      ensures out.Keys == Skills(ops)
      ensures forall s :: s in out ==> Distinct(out[s]) && Elements(out[s]) == ToolsOf(ops, s)
    {
      out := map[];
      var rest, done := ops.Keys, {};
      while rest != {}
        invariant rest + done == ops.Keys && rest * done == {}
        invariant Collected(ops, done, out)
        decreases |rest|
      {
        hide Collected, Keyed;
        var tool :| tool in rest;
        var op := ops[tool];
        var group := if op.skill in out then out[op.skill] else [];
        CollectOne(ops, done, out, tool);
        out := out[op.skill := group + [tool]];
        rest, done := rest - {tool}, done + {tool};
      }
      assert done == ops.Keys;
      assert out.Keys == Skills(ops);
      forall s | s in out ensures Elements(out[s]) == ToolsOf(ops, s) {
        assert ToolsAmong(ops, done, s) == ToolsOf(ops, s);
      }
    }

    method BySkill() returns (out: map<string, seq<string>>)
      requires Keyed(ops)
      ensures out == Groups(ops)
    {
      out := Grouped();
      var rest := out.Keys;
      assert HalfSorted(ops, rest, out);
      while rest != {}
        invariant HalfSorted(ops, rest, out)
        decreases |rest|
      {
        hide Distinct, ToolsOf, Skills, Ascending, Elements, HalfSorted;
        var skill :| skill in rest;
        SortsNext(ops, rest, out, skill);
        var sorted := SortNames(out[skill]);
        out := out[skill := sorted];
        rest := rest - {skill};
      }
      AllSorted(ops, out);
    }
  }

  // ----- Readers agree -----

  /** A descriptor is listed exactly when its operation is registered and passes the filter. */
  lemma {:induction false} SelectHas(list: seq<Op>, skill: string, d: Descriptor)
    ensures d in Select(list, skill) <==>
            exists k :: 0 <= k < |list| && Describe(list[k]) == d && (skill == "" || skill == list[k].skill)
  {
    if list != [] {
      var front, last := list[..|list| - 1], list[|list| - 1];
      SelectHas(front, skill, d);
      assert forall k :: 0 <= k < |front| ==> front[k] == list[k];
    }
  }

  lemma {:induction false} ListToolsHas(ops: Ops, filter: string, d: Descriptor)
    requires Keyed(ops)
    ensures d in Select(ByName(ops), filter) <==>
            && d.tool in ops && d.skill == ops[d.tool].skill && d.schema == ops[d.tool].schema
            && (filter == "" || filter == d.skill)
  {
    hide Ascending, Select, Elements, Sorted;
    var names, list := Sorted(ops.Keys), ByName(ops);
    SortedNamesAreKnown(ops);
    SelectHas(list, filter, d);
    if d.tool in ops {
      FoundInElements(names, d.tool);
      var k :| 0 <= k < |names| && names[k] == d.tool;
      assert list[k] == ops[d.tool];
    }
  }

  /** Each selected descriptor stands for one of the operations, in their order. */
  lemma {:induction false} SelectKeepsOrder(list: seq<Op>, skill: string) returns (places: seq<nat>)
    ensures |places| == |Select(list, skill)|
    ensures forall i :: 0 <= i < |places| ==> places[i] < |list| && Select(list, skill)[i].tool == list[places[i]].tool
    ensures forall i, j :: 0 <= i < j < |places| ==> places[i] < places[j]
  {
    places := [];
    if list != [] {
      var n := |list| - 1;
      places := SelectKeepsOrder(list[..n], skill);
      if skill == "" || skill == list[n].skill {
        places := places + [n];
      }
    }
  }

  /** list_tools answers by ascending name, whatever the filter. */
  lemma {:induction false} ListToolsAscending(ops: Ops, filter: string, i: nat, j: nat)
    requires Keyed(ops) && i < j < |Select(ByName(ops), filter)|
    ensures Before(Select(ByName(ops), filter)[i].tool, Select(ByName(ops), filter)[j].tool)
  {
    hide Select, Before;
    var list := ByName(ops);
    var places := SelectKeepsOrder(list, filter);
    SortedNamesAreKnown(ops);
    var names := Sorted(ops.Keys);
    assert list[places[i]].tool == names[places[i]] && list[places[j]].tool == names[places[j]];
  }

  /** Each operation is in the group of its own skill and in no other. */
  lemma {:induction false} GroupHas(ops: Ops, skill: string, tool: string)
    ensures skill in Groups(ops) && tool in Groups(ops)[skill] <==> tool in ops && ops[tool].skill == skill
  {
    if skill in Groups(ops) {
      FoundInElements(Groups(ops)[skill], tool);
    }
  }

  /** Sizes of the groups of the given skills, added up. */
  ghost function GroupTotal(ops: Ops, skills: seq<string>): nat {
    if skills == [] then 0
    else GroupTotal(ops, skills[..|skills| - 1]) + |Sorted(ToolsOf(ops, skills[|skills| - 1]))|
  }

  function Within(ops: Ops, skills: set<string>): set<string> {
    set t | t in ops && ops[t].skill in skills
  }

  lemma {:induction false} WithinGrows(ops: Ops, skills: set<string>, s: string)
    requires s !in skills
    ensures |Within(ops, skills + {s})| == |Within(ops, skills)| + |ToolsOf(ops, s)|
  {
    assert Within(ops, skills + {s}) == Within(ops, skills) + ToolsOf(ops, s);
    assert Within(ops, skills) * ToolsOf(ops, s) == {};
  }

  lemma {:induction false} LastIsNew(skills: seq<string>)
    requires Distinct(skills) && skills != []
    ensures var front, s := skills[..|skills| - 1], skills[|skills| - 1];
      Distinct(front) && s !in Elements(front) && skills == front + [s]
  {
  }

  lemma {:induction false} NoneWithin(ops: Ops)
    ensures Within(ops, Elements([])) == {}
  {
  }

  lemma {:induction false} GroupTotalCounts(ops: Ops, skills: seq<string>)
    requires Distinct(skills)
    ensures GroupTotal(ops, skills) == |Within(ops, Elements(skills))|
  {
    hide Ascending, Within, ToolsOf, Elements, Distinct;
    if skills == [] {
      NoneWithin(ops);
    } else {
      var front, s := skills[..|skills| - 1], skills[|skills| - 1];
      LastIsNew(skills);
      GroupTotalCounts(ops, front);
      ElementsAppend(front, s);
      WithinGrows(ops, Elements(front), s);
    }
  }

  lemma {:induction false} AllWithin(ops: Ops)
    ensures Within(ops, Skills(ops)) == ops.Keys
  {
  }

  /** The groups partition the operations: in whatever order they are added up, their sizes come to all of them. */
  lemma {:induction false} GroupsPartition(ops: Ops, skills: seq<string>)
    requires Distinct(skills) && Elements(skills) == Groups(ops).Keys
    ensures GroupTotal(ops, skills) == |ops|
    ensures forall s :: s in Groups(ops) ==> Ascending(Groups(ops)[s]) && Groups(ops)[s] != []
  {
    hide Ascending, Elements, Within, GroupTotal, Distinct;
    GroupTotalCounts(ops, skills);
    AllWithin(ops);
    assert Groups(ops).Keys == Skills(ops);
    assert |ops| == |ops.Keys|;
    forall s | s in Groups(ops) ensures Groups(ops)[s] != [] {
      var t :| t in ops && ops[t].skill == s;
      GroupHas(ops, s, t);
    }
  }
}
