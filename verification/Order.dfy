/** Sorting by name, and why a sorted list of names depends only on which names there are. */
module Order {
  import opened Text

  /** Go's string order: byte-wise, which for UTF-8 is by code point. */
  predicate Before(a: string, b: string) {
    b != "" && (a == "" || a[0] < b[0] || (a[0] == b[0] && Before(a[1..], b[1..])))
  }

  lemma {:induction false} BeforeIsTotal(a: string, b: string)
    ensures !Before(a, a)
    ensures Before(a, b) || a == b || Before(b, a)
    ensures !(Before(a, b) && Before(b, a))
    decreases |a|
  {
    if a != "" {
      BeforeIsTotal(a[1..], if b != "" then b[1..] else "");
      if b != "" && a[0] == b[0] && a[1..] == b[1..] {
        assert a == [a[0]] + a[1..] == b;
      }
    }
  }

  lemma {:induction false} BeforeIsTransitive(a: string, b: string, c: string)
    requires Before(a, b) && Before(b, c)
    ensures Before(a, c)
    decreases |a|
  {
    if a != "" && a[0] == b[0] == c[0] {
      BeforeIsTransitive(a[1..], b[1..], c[1..]);
    }
  }

  predicate Ascending(s: seq<string>) {
    forall i, j :: 0 <= i < j < |s| ==> Before(s[i], s[j])
  }

  lemma {:induction false} EmptyIff(s: seq<string>)
    ensures s == [] <==> Elements(s) == {}
  {
    if s != [] {
      assert s[0] in Elements(s);
    }
  }

  lemma {:induction false} FirstIsLeast(a: seq<string>, b: seq<string>)
    requires Ascending(a) && Ascending(b) && Elements(a) == Elements(b) && a != [] && b != []
    ensures a[0] == b[0]
  {
    hide Before;
    assert a[0] in Elements(b) && b[0] in Elements(a);
    var i :| 0 <= i < |a| && a[i] == b[0];
    var j :| 0 <= j < |b| && b[j] == a[0];
    BeforeIsTotal(a[0], b[0]);
  }

  lemma {:induction false} TailElements(a: seq<string>)
    requires Ascending(a) && a != []
    ensures Elements(a[1..]) == Elements(a) - {a[0]}
    ensures Ascending(a[1..])
  {
    hide Before;
    forall k | 1 <= k < |a| ensures a[k] != a[0] {
      assert Before(a[0], a[k]);
      BeforeIsTotal(a[0], a[k]);
    }
    assert forall x :: x in a[1..] ==> x in a;
  }

  /** Two ascending lists of the same names are the same list. */
  lemma {:induction false} AscendingIsUnique(a: seq<string>, b: seq<string>)
    requires Ascending(a) && Ascending(b) && Elements(a) == Elements(b)
    ensures a == b
    decreases |a|
  {
    hide Before;
    EmptyIff(a);
    EmptyIff(b);
    if a != [] {
      FirstIsLeast(a, b);
      TailElements(a);
      TailElements(b);
      AscendingIsUnique(a[1..], b[1..]);
      assert a == [a[0]] + a[1..];
      assert b == [b[0]] + b[1..];
    }
  }

  // ----- Insertion -----

  lemma {:induction false} Inserted(x: string, s: seq<string>)
    requires Ascending(s) && s != [] && Before(x, s[0])
    ensures Ascending([x] + s) && Elements([x] + s) == Elements(s) + {x}
  {
    hide Before;
    forall k | 0 <= k < |s| ensures Before(x, s[k]) {
      if k > 0 {
        BeforeIsTransitive(x, s[0], s[k]);
      }
    }
    assert forall y :: y in [x] + s <==> y == x || y in s;
  }

  lemma {:induction false} Reinserted(x: string, s: seq<string>, r: seq<string>)
    requires Ascending(s) && s != [] && x !in s && !Before(x, s[0])
    requires Ascending(r) && Elements(r) == Elements(s[1..]) + {x}
    ensures Ascending([s[0]] + r) && Elements([s[0]] + r) == Elements(s) + {x}
  {
    hide Before;
    TailElements(s);
    BeforeIsTotal(x, s[0]);
    forall k | 0 <= k < |r| ensures Before(s[0], r[k]) {
      assert r[k] in Elements(s[1..]) + {x};
      if r[k] != x {
        var j :| 0 <= j < |s[1..]| && s[1..][j] == r[k];
        assert s[j + 1] == r[k];
      }
    }
    assert forall y :: y in [s[0]] + r <==> y == s[0] || y in Elements(r);
  }

  /** Put `x` into its place among distinct names. */
  function Insert(x: string, s: seq<string>): (r: seq<string>)
    requires Ascending(s) && x !in s
    ensures Ascending(r) && Elements(r) == Elements(s) + {x} && |r| == |s| + 1
  {
    if s == [] then [x]
    else if Before(x, s[0]) then
      Inserted(x, s);
      [x] + s
    else
      TailElements(s);
      var r := Insert(x, s[1..]);
      Reinserted(x, s, r);
      [s[0]] + r
  }

  /** The names of a set in ascending order. */
  ghost function Sorted(names: set<string>): (s: seq<string>)
    ensures Ascending(s) && Elements(s) == names && |s| == |names|
  {
    if names == {} then []
    else
      var x :| x in names;
      var rest := Sorted(names - {x});
      assert x !in rest by { FoundInElements(rest, x); }
      Insert(x, rest)
  }

  /** Sorting a list of distinct names, in whatever order they come, gives the sorted list of their set. */
  method SortNames(names: seq<string>) returns (s: seq<string>)
    requires Distinct(names)
    ensures s == Sorted(Elements(names))
  {
    hide Before;
    s := [];
    for i := 0 to |names|
      invariant Ascending(s) && Elements(s) == Elements(names[..i])
    {
      assert names[i] !in s by {
        FoundInElements(s, names[i]);
        FoundInElements(names[..i], names[i]);
      }
      assert names[..i + 1] == names[..i] + [names[i]];
      ElementsAppend(names[..i], names[i]);
      s := Insert(names[i], s);
    }
    assert names[..|names|] == names;
    AscendingIsUnique(s, Sorted(Elements(names)));
  }
}
