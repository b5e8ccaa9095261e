/** The private tool catalog: how a tools/list answer becomes one, and when two catalogs are the same. */
module Catalog {
  import opened Text

  /** A decoded JSON value. A Go nil interface is `JNull`; `reflect.DeepEqual` on decoded JSON is equality. */
  datatype Json =
    | JNull
    | JBool(b: bool)
    | JNumber(n: real)
    | JString(s: string)
    | JArray(items: seq<Json>)
    | JObject(fields: map<string, Json>)

  datatype Tool = Tool(name: string, description: string, schema: Json)

  type Catalog = map<string, Tool>

  /** One entry of a tools/list answer, before its name is trimmed. */
  datatype Listing = Listing(name: string, description: string, schema: Json)

  const INVALID_TOOL := "private defi mcp returned invalid tool"
  const NO_TOOLS := "private defi mcp returned no tools"

  function DuplicateTool(name: string): string {
    "private defi mcp returned duplicate tool " + Quoted(name)
  }

  function KeyOf(l: Listing): string {
    TrimSpace(l.name)
  }

  predicate Usable(l: Listing) {
    KeyOf(l) != "" && l.schema != JNull
  }

  /** What every catalog held by a client satisfies. */
  predicate WellKeyed(c: Catalog) {
    && c != map[]
    && forall n :: n in c ==> n != "" && Trimmed(n) && c[n].name == n && c[n].schema != JNull
  }

  lemma {:induction false} NamedByKey(c: Catalog, n: string)
    requires WellKeyed(c) && n in c
    ensures c[n].name == n
  {
  }

  function Keys(listed: seq<Listing>): seq<string> {
    seq(|listed|, i requires 0 <= i < |listed| => KeyOf(listed[i]))
  }

  predicate Clean(listed: seq<Listing>) {
    (forall i :: 0 <= i < |listed| ==> Usable(listed[i])) && Distinct(Keys(listed))
  }

  /** A listing the relay accepts: non-empty, every entry usable, trimmed names pairwise different. */
  predicate Acceptable(listed: seq<Listing>) {
    listed != [] && Clean(listed)
  }

  function ToolOf(l: Listing): Tool {
    Tool(KeyOf(l), l.description, l.schema)
  }

  function CatalogOf(listed: seq<Listing>): Catalog {
    if listed == [] then map[]
    else
      var last := listed[|listed| - 1];
      CatalogOf(listed[..|listed| - 1])[KeyOf(last) := ToolOf(last)]
  }

  lemma {:induction false} FrontKeys(listed: seq<Listing>)
    requires listed != []
    ensures Keys(listed[..|listed| - 1]) == Keys(listed)[..|listed| - 1]
    ensures Keys(listed) == Keys(listed[..|listed| - 1]) + [KeyOf(listed[|listed| - 1])]
    ensures Elements(Keys(listed)) == Elements(Keys(listed[..|listed| - 1])) + {KeyOf(listed[|listed| - 1])}
  {
    var front, key := Keys(listed[..|listed| - 1]), KeyOf(listed[|listed| - 1]);
    assert Keys(listed) == front + [key];
    assert forall k :: k in front + [key] <==> k in front || k == key;
  }

  lemma {:induction false} CatalogNames(listed: seq<Listing>)
    ensures CatalogOf(listed).Keys == Elements(Keys(listed))
  {
    if listed != [] {
      FrontKeys(listed);
      CatalogNames(listed[..|listed| - 1]);
    }
  }

  /** An accepted listing and its catalog correspond one to one. */
  lemma {:induction false} CatalogFaithful(listed: seq<Listing>, i: nat)
    requires Distinct(Keys(listed)) && i < |listed|
    ensures KeyOf(listed[i]) in CatalogOf(listed) && CatalogOf(listed)[KeyOf(listed[i])] == ToolOf(listed[i])
  {
    var n := |listed| - 1;
    if i < n {
      FrontKeys(listed);
      CatalogFaithful(listed[..n], i);
      assert listed[..n][i] == listed[i];
      assert Keys(listed)[i] != Keys(listed)[n];
    }
  }

  lemma {:induction false} AcceptedIsWellKeyed(listed: seq<Listing>)
    requires Acceptable(listed)
    ensures WellKeyed(CatalogOf(listed))
  {
    CatalogFaithful(listed, 0);
    CatalogNames(listed);
    forall n | n in CatalogOf(listed)
      ensures n != "" && Trimmed(n) && CatalogOf(listed)[n].name == n && CatalogOf(listed)[n].schema != JNull
    {
      var i :| 0 <= i < |listed| && Keys(listed)[i] == n;
      CatalogFaithful(listed, i);
      assert Usable(listed[i]);
      TrimSpaceTrims(listed[i].name);
    }
  }

  /** The listing has no complaint and makes up this catalog. */
  predicate MakesUp(listed: seq<Listing>, c: Catalog) {
    Clean(listed) && CatalogOf(listed) == c
  }

  lemma {:induction false} LastListed(listed: seq<Listing>)
    requires listed != []
    ensures var last := listed[|listed| - 1];
      CatalogOf(listed) == CatalogOf(listed[..|listed| - 1])[KeyOf(last) := ToolOf(last)]
  {
  }

  lemma {:induction false} CleanStep(listed: seq<Listing>)
    requires listed != []
    ensures var front, last := listed[..|listed| - 1], listed[|listed| - 1];
      Clean(listed) <==> Clean(front) && Usable(last) && KeyOf(last) !in Keys(front)
  {
    hide Usable, KeyOf;
    var front, last := listed[..|listed| - 1], listed[|listed| - 1];
    FrontKeys(listed);
    assert listed == front + [last];
    if Clean(listed) {
      assert forall i :: 0 <= i < |front| ==> Usable(front[i]) by {
        assert forall i :: 0 <= i < |front| ==> front[i] == listed[i];
      }
      assert Keys(listed)[|front|] == KeyOf(last);
    }
  }

  lemma {:induction false} OneMoreListed(listed: seq<Listing>, c: Catalog, n: string, tool: Tool)
    requires MakesUp(listed, c) && n !in c && n != "" && Trimmed(n) && tool.name == n && tool.schema != JNull
    ensures MakesUp(listed + [Listing(n, tool.description, tool.schema)], c[n := tool])
  {
    hide TrimSpace, Trimmed;
    var l := Listing(n, tool.description, tool.schema);
    var longer := listed + [l];
    TrimmedIff(n);
    CatalogNames(listed);
    FoundInElements(Keys(listed), n);
    assert longer[..|longer| - 1] == listed;
    hide CatalogOf, Clean;
    CleanStep(longer);
    assert CatalogOf(longer) == c[n := tool] by { LastListed(longer); }
  }

  lemma NothingIsClean()
    ensures Clean([])
  {
  }

  /** The part of a catalog that holds these names. */
  function Part(c: Catalog, names: set<string>): Catalog {
    map n | n in c && n in names :: c[n]
  }

  lemma {:induction false} OneMoreName(c: Catalog, names: set<string>, n: string)
    requires n in c && n in names
    ensures Part(c, names) == Part(c, names - {n})[n := c[n]] && n !in Part(c, names - {n})
  {
  }

  lemma {:induction false} NothingIsListed(c: Catalog)
    ensures MakesUp([], Part(c, {})) && CatalogOf([]) == map[]
  {
    NothingIsClean();
  }

  /** Some listing makes up the part of a catalog that holds these names. */
  lemma {:induction false} PartIsListed(c: Catalog, names: set<string>) returns (listed: seq<Listing>)
    requires WellKeyed(c) && names <= c.Keys
    ensures MakesUp(listed, Part(c, names))
    decreases |names|
  {
    hide MakesUp, Trimmed, Part;
    if names == {} {
      listed := [];
      NothingIsListed(c);
    } else {
      var n :| n in names;
      var front := PartIsListed(c, names - {n});
      OneMoreName(c, names, n);
      OneMoreListed(front, Part(c, names - {n}), n, c[n]);
      listed := front + [Listing(n, c[n].description, c[n].schema)];
    }
  }

  /** The catalogs a client can hold are exactly the well-keyed ones: each is what some accepted listing makes up. */
  lemma {:induction false} WellKeyedExactlyWhen(c: Catalog)
    ensures WellKeyed(c) <==> exists listed :: Acceptable(listed) && CatalogOf(listed) == c
  {
    hide Clean, CatalogOf;
    assert WellKeyed(c) ==> c != map[];
    hide WellKeyed;
    if WellKeyed(c) {
      var listed := PartIsListed(c, c.Keys);
      assert Part(c, c.Keys) == c;
      NothingIsListed(c);
      assert Acceptable(listed) && CatalogOf(listed) == c;
    }
    if listed :| Acceptable(listed) && CatalogOf(listed) == c {
      AcceptedIsWellKeyed(listed);
    }
  }

  predicate ListedAs(listed: seq<Listing>, n: string) {
    exists i :: 0 <= i < |listed| && listed[i].name == n
  }

  lemma {:induction false} KeyIsListed(listed: seq<Listing>, n: string)
    requires n in CatalogOf(listed) && forall i :: 0 <= i < |listed| ==> Trimmed(listed[i].name)
    ensures ListedAs(listed, n)
  {
    hide TrimSpace, Trimmed, CatalogOf;
    CatalogNames(listed);
    var i :| 0 <= i < |listed| && Keys(listed)[i] == n;
    TrimmedIff(listed[i].name);
    assert listed[i].name == n;
  }

  /** The first complaint about a listing, in listing order. */
  function Complaint(listed: seq<Listing>): Option<string> {
    if listed == [] then None
    else
      var front, last := listed[..|listed| - 1], listed[|listed| - 1];
      var earlier := Complaint(front);
      if earlier.Some? then earlier
      else if !Usable(last) then Some(INVALID_TOOL)
      else if KeyOf(last) in Keys(front) then Some(DuplicateTool(KeyOf(last)))
      else None
  }

  lemma {:induction false} ListedKeyIsName(listed: seq<Listing>, i: nat)
    requires Acceptable(listed) && i < |listed|
    requires KeyOf(listed[i]) in CatalogOf(listed) ==> ListedAs(listed, KeyOf(listed[i]))
    ensures Trimmed(listed[i].name)
  {
    hide TrimSpace, Trimmed, Usable, CatalogOf, Complaint;
    CatalogFaithful(listed, i);
    var j :| 0 <= j < |listed| && listed[j].name == KeyOf(listed[i]);
    TrimSpaceTrims(listed[i].name);
    assert Keys(listed)[j] == Keys(listed)[i];
    TrimmedIff(listed[i].name);
  }

  /**
   * Tools are sent under their trimmed names. That every name a client can send is one the server listed, to the
   * letter, holds exactly when the server listed no name with white space around it.
   */
  lemma {:induction false} NamesVerbatimExactlyWhen(listed: seq<Listing>)
    requires Acceptable(listed)
    ensures (forall n :: n in CatalogOf(listed) ==> ListedAs(listed, n)) <==>
            forall i :: 0 <= i < |listed| ==> Trimmed(listed[i].name)
  {
    hide TrimSpace, Trimmed, Usable, CatalogOf, Keys, ListedAs;
    if forall i :: 0 <= i < |listed| ==> Trimmed(listed[i].name) {
      forall n | n in CatalogOf(listed) ensures ListedAs(listed, n) {
        KeyIsListed(listed, n);
      }
    }
    if forall n :: n in CatalogOf(listed) ==> ListedAs(listed, n) {
      forall i | 0 <= i < |listed| ensures Trimmed(listed[i].name) {
        ListedKeyIsName(listed, i);
      }
    }
  }

  lemma {:induction false} NoComplaintIff(listed: seq<Listing>)
    ensures Complaint(listed).None? <==> Clean(listed)
  {
    hide Usable, KeyOf, Keys, Clean, DuplicateTool;
    if listed != [] {
      NoComplaintIff(listed[..|listed| - 1]);
      CleanStep(listed);
    } else {
      assert Clean(listed) by { NothingIsClean(); }
    }
  }

  function Refusal(listed: seq<Listing>): string {
    match Complaint(listed)
    case Some(e) => e
    case None => NO_TOOLS
  }

  lemma {:induction false} ComplaintPersists(listed: seq<Listing>, i: nat)
    requires i <= |listed| && Complaint(listed[..i]).Some?
    ensures Complaint(listed) == Complaint(listed[..i])
    decreases |listed|
  {
    if i < |listed| {
      var front := listed[..|listed| - 1];
      assert front[..i] == listed[..i];
      ComplaintPersists(front, i);
    } else {
      assert listed[..i] == listed;
    }
  }

  lemma {:induction false} OneFurther(listed: seq<Listing>, i: nat)
    requires i < |listed| && Complaint(listed[..i]).None?
    ensures Complaint(listed[..i + 1]) == (
      if !Usable(listed[i]) then Some(INVALID_TOOL)
      else if KeyOf(listed[i]) in CatalogOf(listed[..i]) then Some(DuplicateTool(KeyOf(listed[i])))
      else None)
    ensures CatalogOf(listed[..i + 1]) == CatalogOf(listed[..i])[KeyOf(listed[i]) := ToolOf(listed[i])]
  {
    hide Usable, KeyOf, DuplicateTool, ToolOf, Keys;
    var next := listed[..i + 1];
    assert next[..|next| - 1] == listed[..i];
    CatalogNames(listed[..i]);
    FoundInElements(Keys(listed[..i]), KeyOf(listed[i]));
  }

  /** The entry at `i` is the first that is refused: unusable, or under the name of an earlier one. */
  predicate FirstRefused(listed: seq<Listing>, i: nat)
    requires i < |listed|
  {
    && Clean(listed[..i])
    && (TrimSpace(listed[i].name) == "" || listed[i].schema == JNull ||
        exists j :: 0 <= j < i && TrimSpace(listed[j].name) == TrimSpace(listed[i].name))
  }

  /** What is wrong with such an entry. */
  function RefusalOf(l: Listing): string {
    if TrimSpace(l.name) == "" || l.schema == JNull then "private defi mcp returned invalid tool"
    else "private defi mcp returned duplicate tool " + "\"" + TrimSpace(l.name) + "\""
  }

  lemma {:induction false} RefusedHere(listed: seq<Listing>, i: nat)
    requires i < |listed| && Clean(listed[..i]) && !Clean(listed[..i + 1])
    ensures FirstRefused(listed, i)
    ensures Complaint(listed) == Some(RefusalOf(listed[i]))
  {
    hide TrimSpace, Complaint, CatalogOf;
    var front := listed[..i];
    var name := TrimSpace(listed[i].name);
    assert DuplicateTool(name) == "private defi mcp returned duplicate tool " + "\"" + name + "\"";
    assert listed[..i + 1][..|listed[..i + 1]| - 1] == front;
    CleanStep(listed[..i + 1]);
    NoComplaintIff(front);
    NoComplaintIff(listed[..i + 1]);
    OneFurther(listed, i);
    ComplaintPersists(listed, i + 1);
    CatalogNames(front);
    FoundInElements(Keys(front), KeyOf(listed[i]));
    if KeyOf(listed[i]) in Keys(front) {
      var j :| 0 <= j < |front| && Keys(front)[j] == KeyOf(listed[i]);
      assert TrimSpace(listed[j].name) == TrimSpace(listed[i].name);
    }
  }

  lemma {:induction false} FirstUnclean(listed: seq<Listing>, n: nat) returns (i: nat)
    requires n <= |listed| && Clean(listed[..n]) && !Clean(listed)
    ensures n <= i < |listed| && Clean(listed[..i]) && !Clean(listed[..i + 1])
    decreases |listed| - n
  {
    hide Clean;
    assert listed[..|listed|] == listed;
    assert n < |listed|;
    if Clean(listed[..n + 1]) {
      i := FirstUnclean(listed, n + 1);
    } else {
      i := n;
    }
  }

  /**
   * The error of a refused listing: that it is empty, or what is wrong with its first bad entry, which is that it has
   * no name or no schema, or else a name that came before.
   */
  lemma {:induction false} RefusalExactly(listed: seq<Listing>)
    requires !Acceptable(listed)
    ensures listed == [] ==> Refusal(listed) == "private defi mcp returned no tools"
    ensures listed != [] ==>
      exists i: nat :: i < |listed| && FirstRefused(listed, i) && Refusal(listed) == RefusalOf(listed[i])
  {
    hide TrimSpace, FirstRefused, RefusalOf;
    if listed != [] {
      assert listed[..0] == [];
      NothingIsClean();
      var i := FirstUnclean(listed, 0);
      RefusedHere(listed, i);
    }
  }

  // ----- Reading a listing entry by entry -----

  /** The first `i` entries were accepted and make up `tools`. */
  predicate ReadSoFar(listed: seq<Listing>, i: nat, tools: Catalog) {
    i <= |listed| && tools == CatalogOf(listed[..i]) && Complaint(listed[..i]).None?
  }

  lemma {:induction false} NothingRead(listed: seq<Listing>)
    ensures ReadSoFar(listed, 0, map[])
  {
    assert listed[..0] == [];
  }

  /** The listing is refused with this error. */
  predicate RefusedWith(listed: seq<Listing>, error: string) {
    !Acceptable(listed) && Refusal(listed) == error
  }

  lemma {:induction false} ReadOne(listed: seq<Listing>, i: nat, tools: Catalog)
    requires ReadSoFar(listed, i, tools) && i < |listed|
    ensures !Usable(listed[i]) ==> RefusedWith(listed, INVALID_TOOL)
    ensures Usable(listed[i]) && KeyOf(listed[i]) in tools ==> RefusedWith(listed, DuplicateTool(KeyOf(listed[i])))
    ensures Usable(listed[i]) && KeyOf(listed[i]) !in tools ==>
      ReadSoFar(listed, i + 1, tools[KeyOf(listed[i]) := ToolOf(listed[i])])
  {
    hide Usable, KeyOf, DuplicateTool, ToolOf, CatalogOf, Complaint, Clean;
    OneFurther(listed, i);
    if Complaint(listed[..i + 1]).Some? {
      ComplaintPersists(listed, i + 1);
      NoComplaintIff(listed);
    }
  }

  lemma {:induction false} ReadAll(listed: seq<Listing>, tools: Catalog)
    requires ReadSoFar(listed, |listed|, tools)
    ensures tools == CatalogOf(listed)
    ensures if tools == map[] then RefusedWith(listed, NO_TOOLS) else Acceptable(listed)
  {
    assert listed[..|listed|] == listed;
    NoComplaintIff(listed);
    if listed != [] {
      CatalogFaithful(listed, 0);
    }
  }

  /** Two catalogs agree when they have the same names, each with the same schema. */
  predicate SameCatalog(want: Catalog, got: Catalog) {
    want.Keys == got.Keys && forall n :: n in want ==> want[n].schema == got[n].schema
  }

  /**
   * `sameCatalog`: compares sizes, then walks only `want`, in whatever order the map yields its names.
   * That one direction is enough rests on the sizes being equal.
   */
  method CheckSameCatalog(want: Catalog, got: Catalog) returns (same: bool)
    ensures same <==> SameCatalog(want, got)
  {
    if |want| != |got| {
      assert want.Keys == got.Keys ==> |want| == |want.Keys| == |got|;
      return false;
    }
    var rest := want.Keys;
    while rest != {}
      invariant rest <= want.Keys
      invariant forall n :: n in want && n !in rest ==> n in got && want[n].schema == got[n].schema
      decreases |rest|
    {
      var name :| name in rest;
      if name !in got || want[name].schema != got[name].schema {
        return false;
      }
      rest := rest - {name};
    }
    assert want.Keys <= got.Keys;
    assert |want.Keys| == |got.Keys|;
    SubsetOfSameSize(want.Keys, got.Keys);
    return true;
  }

  lemma {:induction false} SameCatalogIsEquivalence(a: Catalog, b: Catalog, c: Catalog)
    ensures SameCatalog(a, a)
    ensures SameCatalog(a, b) ==> SameCatalog(b, a)
    ensures SameCatalog(a, b) && SameCatalog(b, c) ==> SameCatalog(a, c)
  {
  }
}
