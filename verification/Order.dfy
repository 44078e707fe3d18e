/** Go's order on strings, and the sorted form every `sort.Strings`, `slices.Sorted`
    and `sortedKeys` of the repository produces from a set of keys. */
module Order {

  /** Go's `<` on strings: the first differing byte decides, a proper prefix comes first. */
  predicate Less(a: string, b: string) {
    b != [] && (a == [] || a[0] < b[0] || (a[0] == b[0] && Less(a[1..], b[1..])))
  }

  lemma {:induction false} LessIrreflexive(a: string)
    ensures !Less(a, a)
  {
    if a != [] { LessIrreflexive(a[1..]); }
  }

  lemma {:induction false} LessTransitive(a: string, b: string, c: string)
    requires Less(a, b) && Less(b, c)
    ensures Less(a, c)
  {
    if a != [] && a[0] == b[0] == c[0] { LessTransitive(a[1..], b[1..], c[1..]); }
  }

  lemma {:induction false} LessTotal(a: string, b: string)
    ensures a == b || Less(a, b) || Less(b, a)
  {
    if a != [] && b != [] && a[0] == b[0] {
      LessTotal(a[1..], b[1..]);
      assert a == [a[0]] + a[1..] && b == [b[0]] + b[1..];
    }
  }

  /** They are alike before k and a is less there. */
  ghost predicate DiffersAt(a: string, b: string, k: nat) {
    k < |a| && k < |b| && a[..k] == b[..k] && a[k] < b[k]
  }

  /** Which is: a begins b, or the first place they differ decides. */
  lemma {:induction false} LessIs(a: string, b: string)
    ensures Less(a, b) <==> (|a| < |b| && a == b[..|a|]) || exists k: nat :: DiffersAt(a, b, k)
  {
    if a != [] && b != [] {
      if a[0] == b[0] {
        LessIs(a[1..], b[1..]);
        if |a| <= |b| {
          AlikeTails(a, b, |a|);
          assert a[..|a|] == a && a[1..][..|a| - 1] == a[1..];
        }
        forall k: nat | 0 < k < |a| && k < |b| ensures DiffersAt(a, b, k) <==> DiffersAt(a[1..], b[1..], k - 1) {
          AlikeTails(a, b, k);
        }
        if j: nat :| DiffersAt(a[1..], b[1..], j) { assert DiffersAt(a, b, j + 1); }
      } else {
        forall k | 0 < k < |a| && k < |b| ensures a[..k] != b[..k] { assert a[..k][0] != b[..k][0]; }
        assert a[0] < b[0] ==> DiffersAt(a, b, 0);
        assert |a| < |b| ==> b[..|a|][0] == b[0];
      }
    }
  }

  lemma AlikeTails(a: string, b: string, k: nat)
    requires 0 < k <= |a| && k <= |b| && a[0] == b[0]
    ensures a[..k] == b[..k] <==> a[1..][..k - 1] == b[1..][..k - 1]
  {
    assert a[..k] == [a[0]] + a[1..][..k - 1] && b[..k] == [b[0]] + b[1..][..k - 1];
  }

  /** Sorted without duplicates. */
  ghost predicate Increasing(s: seq<string>) {
    forall i, j :: 0 <= i < j < |s| ==> Less(s[i], s[j])
  }

  function Elems<T>(s: seq<T>): set<T> { set x | x in s }

  lemma ElemsConcat<T>(s: seq<T>, t: seq<T>)
    ensures Elems(s + t) == Elems(s) + Elems(t)
  {
    forall x ensures x in Elems(s + t) <==> x in Elems(s) + Elems(t) {
      assert x in s + t <==> x in s || x in t;
    }
  }

  ghost predicate NoDup<T>(s: seq<T>) {
    forall i, j :: 0 <= i < j < |s| ==> s[i] != s[j]
  }

  lemma IncreasingNoDup(s: seq<string>)
    requires Increasing(s)
    ensures NoDup(s)
  {
    forall i, j | 0 <= i < j < |s| ensures s[i] != s[j] { LessIrreflexive(s[i]); }
  }

  // ---- Sorting ----

  /** Puts x behind everything that is not above it: a step of a stable insertion sort. */
  function Place<T>(s: seq<T>, x: T, less: (T, T) -> bool): seq<T> {
    if |s| == 0 then [x] else if less(x, s[0]) then [x] + s else [s[0]] + Place(s[1..], x, less)
  }

  function SortedBy<T>(s: seq<T>, less: (T, T) -> bool): seq<T> {
    if |s| == 0 then [] else Place(SortedBy(s[..|s| - 1], less), s[|s| - 1], less)
  }

  ghost predicate Sorted<T>(s: seq<T>, less: (T, T) -> bool) { forall i, j :: 0 <= i < j < |s| ==> !less(s[j], s[i]) }

  ghost predicate StrictOrder<T(!new)>(less: (T, T) -> bool) {
    (forall a :: !less(a, a)) && (forall a, b, c :: less(a, b) && less(b, c) ==> less(a, c))
  }

  lemma LessIsStrict()
    ensures StrictOrder(Less)
  {
    forall a ensures !Less(a, a) { LessIrreflexive(a); }
    forall a, b, c | Less(a, b) && Less(b, c) ensures Less(a, c) { LessTransitive(a, b, c); }
  }

  lemma {:induction false} PlaceHolds<T>(s: seq<T>, x: T, less: (T, T) -> bool)
    ensures multiset(Place(s, x, less)) == multiset(s) + multiset{x}
  {
    if |s| != 0 {
      assert s == [s[0]] + s[1..];
      if !less(x, s[0]) { PlaceHolds(s[1..], x, less); }
    }
  }

  lemma ConsSorted<T>(x: T, s: seq<T>, less: (T, T) -> bool)
    requires Sorted(s, less) && forall y :: y in s ==> !less(y, x)
    ensures Sorted([x] + s, less)
  {
  }

  lemma NotBelow<T(!new)>(y: T, x: T, z: T, less: (T, T) -> bool)
    requires StrictOrder(less) && !less(y, z) && less(x, z)
    ensures !less(y, x)
  {
  }

  lemma {:induction false} PlaceSorts<T(!new)>(s: seq<T>, x: T, less: (T, T) -> bool)
    requires StrictOrder(less) && Sorted(s, less)
    ensures Sorted(Place(s, x, less), less) && multiset(Place(s, x, less)) == multiset(s) + multiset{x}
  {
    PlaceHolds(s, x, less);
    if |s| == 0 {
    } else if less(x, s[0]) {
      forall y | y in s ensures !less(y, x) { NotBelow(y, x, s[0], less); }
      ConsSorted(x, s, less);
    } else {
      PlaceSorts(s[1..], x, less);
      forall y | y in Place(s[1..], x, less) ensures !less(y, s[0]) {
        assert y in multiset(Place(s[1..], x, less));
        assert y == x || y in multiset(s[1..]);
      }
      ConsSorted(s[0], Place(s[1..], x, less), less);
    }
  }

  lemma {:induction false} SortedBySorts<T(!new)>(s: seq<T>, less: (T, T) -> bool)
    requires StrictOrder(less)
    ensures Sorted(SortedBy(s, less), less) && multiset(SortedBy(s, less)) == multiset(s)
    ensures |SortedBy(s, less)| == |s|
  {
    if |s| != 0 {
      var init, last := s[..|s| - 1], s[|s| - 1];
      SortedBySorts(init, less);
      PlaceSorts(SortedBy(init, less), last, less);
      assert s == init + [last];
    }
    assert |multiset(SortedBy(s, less))| == |SortedBy(s, less)| && |multiset(s)| == |s|;
  }

  /** The head of an increasing list is below the rest. */
  lemma ConsIncreasing(x: string, s: seq<string>)
    requires Increasing(s) && forall y :: y in s ==> Less(x, y)
    ensures Increasing([x] + s)
  {
  }

  lemma SameElems<T>(s: seq<T>, t: seq<T>)
    requires multiset(s) == multiset(t)
    ensures Elems(s) == Elems(t) && |s| == |t|
  {
    forall x ensures x in s <==> x in t { assert x in multiset(s) <==> x in multiset(t); }
    assert |multiset(s)| == |s| && |multiset(t)| == |t|;
  }

  lemma PlaceElems<T>(s: seq<T>, x: T, less: (T, T) -> bool)
    ensures Elems(Place(s, x, less)) == Elems(s) + {x}
  {
    PlaceHolds(s, x, less);
    assert multiset(s + [x]) == multiset(s) + multiset{x};
    SameElems(Place(s, x, less), s + [x]);
    ElemsConcat(s, [x]);
  }

  lemma {:induction false} PlaceKeepsIncreasing(s: seq<string>, x: string)
    requires Increasing(s) && x !in s
    ensures Increasing(Place(s, x, Less)) && Elems(Place(s, x, Less)) == Elems(s) + {x}
  {
    PlaceElems(s, x, Less);
    hide Less;
    if s == [] {
    } else if Less(x, s[0]) {
      forall y | y in s ensures Less(x, y) { if y != s[0] { LessTransitive(x, s[0], y); } }
      ConsIncreasing(x, s);
    } else {
      LessTotal(s[0], x);
      PlaceKeepsIncreasing(s[1..], x);
      forall y | y in Place(s[1..], x, Less) ensures Less(s[0], y) { assert y in Elems(s[1..]) + {x}; }
      ConsIncreasing(s[0], Place(s[1..], x, Less));
    }
  }

  /** An increasing list is determined by its elements. */
  lemma {:induction false} SameElemsSameList(s: seq<string>, t: seq<string>)
    requires Increasing(s) && Increasing(t) && Elems(s) == Elems(t)
    ensures s == t
  {
    assert s != [] ==> s[0] in Elems(s);
    assert t != [] ==> t[0] in Elems(t);
    if s != [] {
      assert s[0] in Elems(t) && t[0] in Elems(s);
      var i :| 0 <= i < |t| && t[i] == s[0];
      var j :| 0 <= j < |s| && s[j] == t[0];
      if i > 0 && j > 0 { LessTransitive(s[0], t[0], s[0]); LessIrreflexive(s[0]); }
      assert s[0] == t[0];
      IncreasingNoDup(s);
      IncreasingNoDup(t);
      assert Elems(s[1..]) == Elems(s) - {s[0]} by { assert s == [s[0]] + s[1..]; ElemsConcat([s[0]], s[1..]); }
      assert Elems(t[1..]) == Elems(t) - {t[0]} by { assert t == [t[0]] + t[1..]; ElemsConcat([t[0]], t[1..]); }
      SameElemsSameList(s[1..], t[1..]);
      assert s == [s[0]] + s[1..] && t == [t[0]] + t[1..];
    }
  }

  /** The keys of a set in increasing order. */
  ghost function SortedKeys(keys: set<string>): (s: seq<string>)
    ensures Increasing(s) && Elems(s) == keys
  {
    if keys == {} then [] else
      var x :| x in keys;
      var rest := SortedKeys(keys - {x});
      assert x !in Elems(rest);
      PlaceKeepsIncreasing(rest, x);
      Place(rest, x, Less)
  }

  /** Collects keys in whatever order the map gives them, then sorts: the result does
      not depend on that order. */
  method Sort(keys: set<string>) returns (s: seq<string>)
    ensures s == SortedKeys(keys)
  {
    s := [];
    var rest := keys;
    while rest != {}
      invariant rest <= keys && Increasing(s) && Elems(s) == keys - rest
      decreases rest
    {
      var x :| x in rest;
      assert x !in Elems(s);
      PlaceKeepsIncreasing(s, x);
      s, rest := Place(s, x, Less), rest - {x};
    }
    SameElemsSameList(s, SortedKeys(keys));
  }
}
