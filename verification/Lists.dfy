/** The list helpers of subscriber/helpers.go. The source writes each of them twice, once for event
    types and once for addresses; and `removeX(existing, remove)` and `diffX(a, b)` have one body. */
module Lists {

  ghost function Elements<T>(s: seq<T>): set<T> {
    set x | x in s
  }

  lemma ElementsEmpty<T>(s: seq<T>)
    ensures Elements(s) == {} <==> s == []
  {
    if s != [] {
      assert s[0] in Elements(s);
    }
  }

  lemma ElementsSnoc<T>(s: seq<T>, x: T)
    ensures Elements(s + [x]) == Elements(s) + {x}
  {
  }

  ghost predicate Distinct<T>(s: seq<T>) {
    forall i, j | 0 <= i < j < |s| :: s[i] != s[j]
  }

  /** The items of `a` that do not occur in `b`, in their order in `a`. */
  function Without<T(==)>(a: seq<T>, b: seq<T>): seq<T> {
    if a == [] then []
    else
      var front := Without(a[..|a| - 1], b);
      if a[|a| - 1] in b then front else front + [a[|a| - 1]]
  }

  /** `existing` followed by every item of `add` that is new where it stands. */
  function Merged<T(==)>(existing: seq<T>, add: seq<T>): seq<T> {
    if add == [] then existing
    else
      var front := Merged(existing, add[..|add| - 1]);
      if add[|add| - 1] in front then front else front + [add[|add| - 1]]
  }

  /** removeTypes, removeStrings, diffTypes and diffStrings. */
  method Remove<T(==)>(a: seq<T>, b: seq<T>) returns (result: seq<T>)
    ensures result == Without(a, b)
  {
    var dropped: map<T, bool> := map[];
    for i := 0 to |b|
      invariant forall x :: x in dropped <==> x in b[..i]
    {
      dropped := dropped[b[i] := true];
    }
    assert b[..|b|] == b;
    result := [];
    for i := 0 to |a|
      invariant result == Without(a[..i], b)
    {
      assert a[..i + 1][..i] == a[..i];
      if a[i] !in dropped {
        result := result + [a[i]];
      }
    }
    assert a[..|a|] == a;
  }

  /** mergeTypes and mergeStrings. */
  method Merge<T(==)>(existing: seq<T>, add: seq<T>) returns (result: seq<T>)
    ensures result == Merged(existing, add)
  {
    var present: map<T, bool> := map[];
    for i := 0 to |existing|
      invariant forall x :: x in present <==> x in existing[..i]
    {
      present := present[existing[i] := true];
    }
    assert existing[..|existing|] == existing;
    result := existing;
    for i := 0 to |add|
      invariant result == Merged(existing, add[..i])
      invariant forall x :: x in present <==> x in result
    {
      assert add[..i + 1][..i] == add[..i];
      if add[i] !in present {
        result := result + [add[i]];
        present := present[add[i] := true];
      }
    }
    assert add[..|add|] == add;
  }

  lemma {:induction false} WithoutElements<T>(a: seq<T>, b: seq<T>)
    ensures Elements(Without(a, b)) == Elements(a) - Elements(b)
    ensures Without(a, b) == [] <==> Elements(a) <= Elements(b)
    decreases |a|
  {
    if a == [] {
    } else {
      var front, last := a[..|a| - 1], a[|a| - 1];
      assert a == front + [last];
      WithoutElements(front, b);
      ElementsSnoc(front, last);
      ElementsSnoc(Without(front, b), last);
    }
    ElementsEmpty(Without(a, b));
  }

  /** Multiplicities survive: an item kept by Without occurs as often as in `a`. */
  lemma {:induction false} WithoutMultiplicity<T>(a: seq<T>, b: seq<T>, x: T)
    ensures multiset(Without(a, b))[x] == if x in b then 0 else multiset(a)[x]
    decreases |a|
  {
    if a == [] {
    } else {
      assert a == a[..|a| - 1] + [a[|a| - 1]];
      WithoutMultiplicity(a[..|a| - 1], b, x);
    }
  }

  /** An item is dropped or kept for itself, in its place: filtering goes through a list piece by piece. */
  lemma {:induction false} WithoutPiecewise<T>(a: seq<T>, c: seq<T>, b: seq<T>)
    ensures Without(a + c, b) == Without(a, b) + Without(c, b)
    ensures forall x :: Without([x], b) == if x in b then [] else [x]
    decreases |c|
  {
    forall x ensures Without([x], b) == if x in b then [] else [x] {
      assert [x][..0] == [];
    }
    if c == [] {
      assert a + c == a;
    } else {
      var front, last := c[..|c| - 1], c[|c| - 1];
      assert (a + c)[..|a + c| - 1] == a + front;
      WithoutPiecewise(a, front, b);
      assert Without(a, b) + (Without(front, b) + [last]) == Without(a, b) + Without(front, b) + [last];
    }
  }

  lemma {:induction false} MergedElements<T>(existing: seq<T>, add: seq<T>)
    ensures Elements(Merged(existing, add)) == Elements(existing) + Elements(add)
    decreases |add|
  {
    if add == [] {
    } else {
      var front, last := add[..|add| - 1], add[|add| - 1];
      assert add == front + [last];
      MergedElements(existing, front);
      ElementsSnoc(front, last);
      ElementsSnoc(Merged(existing, front), last);
    }
  }

  /** Merging keeps the existing list as a prefix; what follows are distinct items that were not
      in it, standing in the order in which they first occur in `add`. */
  lemma {:induction false} MergedAppendsNewOnce<T>(existing: seq<T>, add: seq<T>) returns (from: seq<nat>)
    ensures existing <= Merged(existing, add)
    ensures var added := Merged(existing, add)[|existing|..];
      && Distinct(added)
      && (forall x | x in added :: x !in existing)
      && |from| == |added|
      && (forall i | 0 <= i < |from| :: from[i] < |add| && add[from[i]] == added[i] && added[i] !in add[..from[i]])
      && (forall i, j | 0 <= i < j < |from| :: from[i] < from[j])
    decreases |add|
  {
    if add == [] {
      from := [];
    } else {
      var n := |add| - 1;
      var front := add[..n];
      from := MergedAppendsNewOnce(existing, front);
      MergedElements(existing, front);
      var merged := Merged(existing, front);
      assert forall i | 0 <= i < |from| :: add[..from[i]] == front[..from[i]];
      assert add[n] in merged <==> add[n] in Elements(merged);
      if add[n] !in merged {
        assert Merged(existing, add)[|existing|..] == merged[|existing|..] + [add[n]];
        assert add[n] !in front && add[n] !in existing;
        from := from + [n];
      }
    }
  }
}
