/** Sorting by a real-valued key. Go's sort.Slice is not stable: all a caller may rely on is
    that the outcome is some ordering of the input. */
module Sorting {
  import opened Collections

  ghost predicate Ordered<T>(key: T -> real, s: seq<T>) {
    forall i, j :: 0 <= i < j < |s| ==> key(s[i]) <= key(s[j])
  }

  /** s is one of the outcomes an unstable sort of t may leave behind. */
  ghost predicate IsSorting<T>(key: T -> real, s: seq<T>, t: seq<T>) {
    Ordered(key, s) && Permutation(s, t)
  }

  /** Elements with the same key are the same element. */
  ghost predicate Consistent<T>(key: T -> real, s: seq<T>) {
    forall i, j :: 0 <= i < |s| && 0 <= j < |s| && key(s[i]) == key(s[j]) ==> s[i] == s[j]
  }

  function Insert<T>(key: T -> real, x: T, s: seq<T>): (r: seq<T>)
    ensures |r| == |s| + 1
  {
    if |s| == 0 || key(s[|s| - 1]) <= key(x) then s + [x]
    else Insert(key, x, s[..|s| - 1]) + [s[|s| - 1]]
  }

  /** The stable ordering of s. */
  function Sorted<T>(key: T -> real, s: seq<T>): (r: seq<T>)
    ensures |r| == |s|
  {
    if |s| == 0 then [] else Insert(key, s[|s| - 1], Sorted(key, s[..|s| - 1]))
  }

  lemma {:induction false} InsertMultiset<T>(key: T -> real, x: T, s: seq<T>)
    ensures multiset(Insert(key, x, s)) == multiset(s) + multiset{x}
    decreases |s|
  {
    if |s| > 0 && key(s[|s| - 1]) > key(x) {
      assert s == s[..|s| - 1] + [s[|s| - 1]];
      InsertMultiset(key, x, s[..|s| - 1]);
    }
  }

  lemma {:induction false} InsertBelow<T>(key: T -> real, x: T, s: seq<T>, bound: real)
    requires key(x) <= bound && forall i :: 0 <= i < |s| ==> key(s[i]) <= bound
    ensures forall i :: 0 <= i < |Insert(key, x, s)| ==> key(Insert(key, x, s)[i]) <= bound
    decreases |s|
  {
    if |s| > 0 && key(s[|s| - 1]) > key(x) {
      InsertBelow(key, x, s[..|s| - 1], bound);
    }
  }

  lemma {:induction false} InsertOrdered<T>(key: T -> real, x: T, s: seq<T>)
    requires Ordered(key, s)
    ensures Ordered(key, Insert(key, x, s))
    ensures multiset(Insert(key, x, s)) == multiset(s) + multiset{x}
    decreases |s|
  {
    InsertMultiset(key, x, s);
    if |s| > 0 && key(s[|s| - 1]) > key(x) {
      InsertOrdered(key, x, s[..|s| - 1]);
      InsertBelow(key, x, s[..|s| - 1], key(s[|s| - 1]));
    }
  }

  lemma {:induction false} SortedSorts<T>(key: T -> real, s: seq<T>)
    ensures IsSorting(key, Sorted(key, s), s)
    decreases |s|
  {
    if |s| > 0 {
      assert s == s[..|s| - 1] + [s[|s| - 1]];
      SortedSorts(key, s[..|s| - 1]);
      InsertOrdered(key, s[|s| - 1], Sorted(key, s[..|s| - 1]));
    }
  }

  function AtKey<T>(key: T -> real, v: real): T -> Option<T> {
    (x: T) => if key(x) == v then Some(x) else None
  }

  lemma {:induction false} InsertStable<T>(key: T -> real, x: T, s: seq<T>, v: real)
    requires Ordered(key, s)
    ensures FilterMap(AtKey(key, v), Insert(key, x, s))
      == FilterMap(AtKey(key, v), s) + (if key(x) == v then [x] else [])
    decreases |s|
  {
    var f := AtKey(key, v);
    if |s| == 0 || key(s[|s| - 1]) <= key(x) {
      FilterMapStep(f, s, x);
    } else {
      var init, last := s[..|s| - 1], s[|s| - 1];
      assert s == init + [last];
      InsertStable(key, x, init, v);
      FilterMapStep(f, init, last);
      FilterMapStep(f, Insert(key, x, init), last);
    }
  }

  /** Elements with the same key keep their order: the sort is stable. */
  lemma {:induction false} SortedStable<T>(key: T -> real, s: seq<T>, v: real)
    ensures FilterMap(AtKey(key, v), Sorted(key, s)) == FilterMap(AtKey(key, v), s)
    decreases |s|
  {
    hide FilterMap;
    if |s| > 0 {
      var init, last := s[..|s| - 1], s[|s| - 1];
      assert s == init + [last];
      SortedStable(key, init, v);
      SortedSorts(key, init);
      InsertStable(key, last, Sorted(key, init), v);
      FilterMapStep(AtKey(key, v), init, last);
    } else {
      assert Sorted(key, s) == s;
    }
  }

  lemma ConsistentPermutation<T>(key: T -> real, s: seq<T>, t: seq<T>)
    requires Permutation(s, t) && Consistent(key, t)
    ensures Consistent(key, s)
  {
    PermutationLength(s, t);
    forall i, j | 0 <= i < |s| && 0 <= j < |s| && key(s[i]) == key(s[j]) ensures s[i] == s[j] {
      assert s[i] in t && s[j] in t;
    }
  }

  /** Two orderings of the same consistent data are the same sequence. */
  lemma {:induction false} OrderedUnique<T>(key: T -> real, s: seq<T>, t: seq<T>)
    requires Ordered(key, s) && Ordered(key, t) && Permutation(s, t) && Consistent(key, t)
    ensures s == t
    decreases |s|
  {
    PermutationLength(s, t);
    if |s| > 0 {
      var n := |s| - 1;
      var a, b := s[n], t[n];
      assert a in t && b in s;
      assert key(a) == key(b);
      assert a == b;
      WithoutMultiset(s, n);
      WithoutMultiset(t, n);
      assert Without(s, n) == s[..n] && Without(t, n) == t[..n];
      MultisetCancel(multiset(s[..n]), multiset(t[..n]), a);
      OrderedUnique(key, s[..n], t[..n]);
      assert s == s[..n] + [a] && t == t[..n] + [b];
    }
  }

  lemma SortingUnique<T>(key: T -> real, s: seq<T>, t: seq<T>)
    requires IsSorting(key, s, t) && Consistent(key, t)
    ensures s == Sorted(key, t)
  {
    SortedSorts(key, t);
    ConsistentPermutation(key, Sorted(key, t), t);
    OrderedUnique(key, s, Sorted(key, t));
  }

  lemma SortedPermutation<T>(key: T -> real, s: seq<T>, t: seq<T>)
    requires Permutation(s, t) && Consistent(key, t)
    ensures Sorted(key, s) == Sorted(key, t)
  {
    SortedSorts(key, s);
    SortingUnique(key, Sorted(key, s), t);
  }

  ghost predicate KeepsOrder<A(!new), B>(keyA: A -> real, keyB: B -> real, h: A -> B) {
    forall a, b {:trigger h(a), h(b)} :: keyA(a) <= keyA(b) <==> keyB(h(a)) <= keyB(h(b))
  }

  lemma {:induction false} InsertMap<A(!new), B>(keyA: A -> real, keyB: B -> real, h: A -> B, x: A, s: seq<A>)
    requires KeepsOrder(keyA, keyB, h)
    ensures Insert(keyB, h(x), Map(h, s)) == Map(h, Insert(keyA, x, s))
    decreases |s|
  {
    if |s| > 0 {
      assert Map(h, s)[..|s| - 1] == Map(h, s[..|s| - 1]);
      InsertMap(keyA, keyB, h, x, s[..|s| - 1]);
    }
  }

  /** Relabelling elements in a way that keeps their order commutes with sorting. */
  lemma {:induction false} SortedMap<A(!new), B>(keyA: A -> real, keyB: B -> real, h: A -> B, s: seq<A>)
    requires KeepsOrder(keyA, keyB, h)
    ensures Sorted(keyB, Map(h, s)) == Map(h, Sorted(keyA, s))
    decreases |s|
  {
    hide KeepsOrder;
    if |s| > 0 {
      assert Map(h, s)[..|s| - 1] == Map(h, s[..|s| - 1]);
      SortedMap(keyA, keyB, h, s[..|s| - 1]);
      InsertMap(keyA, keyB, h, s[|s| - 1], Sorted(keyA, s[..|s| - 1]));
    }
  }

  method Swap<T>(a: array<T>, i: nat, j: nat)
    requires i < a.Length && j < a.Length
    modifies a
    ensures a[..] == old(a[..])[i := old(a[j])][j := old(a[i])]
    ensures Permutation(a[..], old(a[..]))
  {
    a[i], a[j] := a[j], a[i];
  }

  /** Moves the element at i down to its place among the ordered elements before it. */
  method Sink<T>(a: array<T>, key: T -> real, i: nat)
    requires i < a.Length && Ordered(key, a[..i])
    modifies a
    ensures Ordered(key, a[..i + 1])
    ensures Permutation(a[..], old(a[..]))
  {
    var j := i;
    while j > 0 && key(a[j]) < key(a[j - 1])
      invariant 0 <= j <= i
      invariant forall m, n :: 0 <= m < n <= i && n != j ==> key(a[m]) <= key(a[n])
      invariant Permutation(a[..], old(a[..]))
    {
      Swap(a, j - 1, j);
      j := j - 1;
    }
  }

  /** In-place insertion sort by adjacent swaps, the form Go's sort takes on short slices. */
  method SortInPlace<T>(a: array<T>, key: T -> real)
    modifies a
    ensures IsSorting(key, a[..], old(a[..]))
    ensures Consistent(key, old(a[..])) ==> a[..] == Sorted(key, old(a[..]))
  {
    for i := 0 to a.Length
      invariant Ordered(key, a[..i])
      invariant Permutation(a[..], old(a[..]))
    {
      Sink(a, key, i);
    }
    assert a[..a.Length] == a[..];
    if Consistent(key, old(a[..])) {
      SortingUnique(key, a[..], old(a[..]));
    }
  }
}
