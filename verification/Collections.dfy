/** Sequences: mapping, filtering and summing, and what a permutation does to each. */
module Collections {

  datatype Option<+T> = None | Some(value: T)

  function Map<A, B>(f: A -> B, s: seq<A>): (r: seq<B>)
    ensures |r| == |s|
    ensures forall i :: 0 <= i < |s| ==> r[i] == f(s[i])
  {
    seq(|s|, i requires 0 <= i < |s| => f(s[i]))
  }

  function Single<T>(o: Option<T>): seq<T> {
    match o
    case None => []
    case Some(v) => [v]
  }

  function MapOption<A, B>(f: A -> B, o: Option<A>): Option<B> {
    match o
    case None => None
    case Some(v) => Some(f(v))
  }

  /** Applies f to every element in order and keeps the results that are present. */
  function FilterMap<A, B>(f: A -> Option<B>, s: seq<A>): seq<B> {
    if |s| == 0 then [] else FilterMap(f, s[..|s| - 1]) + Single(f(s[|s| - 1]))
  }

  function SumOf<A>(f: A -> real, s: seq<A>): real {
    if |s| == 0 then 0.0 else SumOf(f, s[..|s| - 1]) + f(s[|s| - 1])
  }

  ghost predicate Permutation<T>(s: seq<T>, t: seq<T>) {
    multiset(s) == multiset(t)
  }

  ghost predicate NoDuplicates<T>(s: seq<T>) {
    forall i, j :: 0 <= i < j < |s| ==> s[i] != s[j]
  }

  function Without<T>(s: seq<T>, i: nat): (r: seq<T>)
    requires i < |s|
  {
    s[..i] + s[i + 1..]
  }

  lemma WithoutMultiset<T>(s: seq<T>, i: nat)
    requires i < |s|
    ensures multiset(s) == multiset(Without(s, i)) + multiset{s[i]}
  {
    assert s == s[..i] + [s[i]] + s[i + 1..];
  }

  lemma {:induction false} FilterMapConcat<A, B>(f: A -> Option<B>, s: seq<A>, t: seq<A>)
    ensures FilterMap(f, s + t) == FilterMap(f, s) + FilterMap(f, t)
    decreases |t|
  {
    if |t| == 0 {
      assert s + t == s;
    } else {
      assert (s + t)[..|s + t| - 1] == s + t[..|t| - 1];
      FilterMapConcat(f, s, t[..|t| - 1]);
    }
  }

  lemma {:induction false} SumOfConcat<A>(f: A -> real, s: seq<A>, t: seq<A>)
    ensures SumOf(f, s + t) == SumOf(f, s) + SumOf(f, t)
    decreases |t|
  {
    if |t| == 0 {
      assert s + t == s;
    } else {
      assert (s + t)[..|s + t| - 1] == s + t[..|t| - 1];
      SumOfConcat(f, s, t[..|t| - 1]);
    }
  }

  lemma MultisetCancel<T>(a: multiset<T>, b: multiset<T>, x: T)
    requires a + multiset{x} == b + multiset{x}
    ensures a == b
  {
    assert a == (a + multiset{x}) - multiset{x};
    assert b == (b + multiset{x}) - multiset{x};
  }

  lemma FilterMapStep<A, B>(f: A -> Option<B>, s: seq<A>, x: A)
    ensures FilterMap(f, s + [x]) == FilterMap(f, s) + Single(f(x))
  {
    assert (s + [x])[..|s|] == s;
  }

  lemma SumOfStep<A>(f: A -> real, s: seq<A>, x: A)
    ensures SumOf(f, s + [x]) == SumOf(f, s) + f(x)
  {
    assert (s + [x])[..|s|] == s;
  }

  lemma {:induction false} FilterMapSplit<A, B>(f: A -> Option<B>, t: seq<A>, i: nat)
    requires i < |t|
    ensures multiset(FilterMap(f, t)) == multiset(FilterMap(f, Without(t, i))) + multiset(Single(f(t[i])))
  {
    var l, x, r := t[..i], t[i], t[i + 1..];
    assert t == (l + [x]) + r;
    FilterMapConcat(f, l, r);
    FilterMapConcat(f, l + [x], r);
    FilterMapStep(f, l, x);
  }

  lemma {:induction false} SumOfSplit<A>(f: A -> real, t: seq<A>, i: nat)
    requires i < |t|
    ensures SumOf(f, t) == SumOf(f, Without(t, i)) + f(t[i])
  {
    var l, x, r := t[..i], t[i], t[i + 1..];
    assert t == (l + [x]) + r;
    SumOfConcat(f, l, r);
    SumOfConcat(f, l + [x], r);
    SumOfStep(f, l, x);
  }

  /** The last element of s sits somewhere in t; dropping both leaves permutations. */
  lemma PermutationDropLast<T>(s: seq<T>, t: seq<T>) returns (i: nat)
    requires Permutation(s, t) && |s| > 0
    ensures i < |t| && t[i] == s[|s| - 1] && Permutation(s[..|s| - 1], Without(t, i))
  {
    assert s[|s| - 1] in multiset(t);
    i :| i < |t| && t[i] == s[|s| - 1];
    WithoutMultiset(t, i);
    WithoutMultiset(s, |s| - 1);
    assert Without(s, |s| - 1) == s[..|s| - 1];
    MultisetCancel(multiset(s[..|s| - 1]), multiset(Without(t, i)), t[i]);
  }

  lemma PermutationLength<T>(s: seq<T>, t: seq<T>)
    requires Permutation(s, t)
    ensures |s| == |t|
    ensures forall x :: x in s <==> x in t
  {
    assert |multiset(s)| == |multiset(t)|;
    forall x ensures x in s <==> x in t {
      assert x in s <==> x in multiset(s);
      assert x in t <==> x in multiset(t);
    }
  }

  lemma {:induction false} FilterMapPermutation<A, B>(f: A -> Option<B>, s: seq<A>, t: seq<A>)
    requires Permutation(s, t)
    ensures Permutation(FilterMap(f, s), FilterMap(f, t))
    decreases |s|
  {
    if |s| == 0 {
      PermutationLength(s, t);
    } else {
      var i := PermutationDropLast(s, t);
      FilterMapPermutation(f, s[..|s| - 1], Without(t, i));
      FilterMapSplit(f, t, i);
    }
  }

  lemma {:induction false} SumOfPermutation<A>(f: A -> real, s: seq<A>, t: seq<A>)
    requires Permutation(s, t)
    ensures SumOf(f, s) == SumOf(f, t)
    decreases |s|
  {
    if |s| == 0 {
      PermutationLength(s, t);
    } else {
      var i := PermutationDropLast(s, t);
      SumOfPermutation(f, s[..|s| - 1], Without(t, i));
      SumOfSplit(f, t, i);
    }
  }

  /** Changing the input by h and the function from g to f commutes with filtering,
      when f after h is g followed by k. */
  lemma {:induction false} FilterMapTransform<A, B, C, D>(
      f: C -> Option<D>, g: A -> Option<B>, h: A -> C, k: B -> D, s: seq<A>)
    requires forall a :: a in s ==> f(h(a)) == MapOption(k, g(a))
    ensures FilterMap(f, Map(h, s)) == Map(k, FilterMap(g, s))
    decreases |s|
  {
    if |s| > 0 {
      var s' := s[..|s| - 1];
      assert Map(h, s)[..|s| - 1] == Map(h, s');
      FilterMapTransform(f, g, h, k, s');
      assert s[|s| - 1] in s;
    }
  }

  /** An element is kept exactly when f yields it from some element. */
  lemma {:induction false} FilterMapMembers<A, B>(f: A -> Option<B>, s: seq<A>, b: B)
    ensures b in FilterMap(f, s) <==> exists a :: a in s && f(a) == Some(b)
    decreases |s|
  {
    if |s| > 0 {
      var last := s[|s| - 1];
      assert s == s[..|s| - 1] + [last];
      FilterMapMembers(f, s[..|s| - 1], b);
    }
  }

  lemma NoDuplicatesPermutation<T>(s: seq<T>, t: seq<T>)
    requires NoDuplicates(s) && NoDuplicates(t)
    requires forall x :: x in s <==> x in t
    ensures Permutation(s, t)
  {
    forall x ensures multiset(s)[x] == multiset(t)[x] {
      NoDuplicatesCount(s, x);
      NoDuplicatesCount(t, x);
    }
  }

  lemma {:induction false} NoDuplicatesCount<T>(s: seq<T>, x: T)
    requires NoDuplicates(s)
    ensures multiset(s)[x] == if x in s then 1 else 0
    decreases |s|
  {
    if |s| > 0 {
      var s' := s[..|s| - 1];
      assert s == s' + [s[|s| - 1]];
      NoDuplicatesCount(s', x);
    }
  }

  lemma NoDuplicatesPreserved<T>(s: seq<T>, t: seq<T>)
    requires Permutation(s, t) && NoDuplicates(t)
    ensures NoDuplicates(s)
  {
    forall i, j | 0 <= i < j < |s| ensures s[i] != s[j] {
      NoDuplicatesCount(t, s[i]);
      RepeatedCount(s, i, j);
    }
  }

  lemma RepeatedCount<T>(s: seq<T>, i: nat, j: nat)
    requires i < j < |s|
    ensures s[i] == s[j] ==> multiset(s)[s[i]] >= 2
  {
    assert s == s[..i] + [s[i]] + s[i + 1..j] + [s[j]] + s[j + 1..];
  }

  lemma SomeMember<T>(s: seq<T>)
    ensures |s| > 0 ==> exists x :: x in s
  {
    if |s| > 0 {
      assert s[0] in s;
    }
  }

  lemma {:induction false} CountTwice<T>(s: seq<T>, x: T) returns (i: nat, j: nat)
    requires multiset(s)[x] >= 2
    ensures i < j < |s| && s[i] == s[j] == x
    decreases |s|
  {
    var n := |s| - 1;
    assert s == s[..n] + [s[n]];
    if s[n] == x {
      assert x in multiset(s[..n]);
      i :| i < n && s[i] == x;
      j := n;
    } else {
      i, j := CountTwice(s[..n], x);
    }
  }

  lemma {:induction false} MapPermutation<A, B>(f: A -> B, s: seq<A>, t: seq<A>)
    requires Permutation(s, t)
    ensures Permutation(Map(f, s), Map(f, t))
    decreases |s|
  {
    if |s| == 0 {
      PermutationLength(s, t);
    } else {
      var i := PermutationDropLast(s, t);
      MapPermutation(f, s[..|s| - 1], Without(t, i));
      assert Map(f, s) == Map(f, s[..|s| - 1]) + [f(t[i])];
      assert Map(f, Without(t, i)) == Without(Map(f, t), i);
      WithoutMultiset(Map(f, t), i);
    }
  }

  /** A filter keeps the copies of an element or drops them all. */
  lemma {:induction false} FilterCount<A>(g: A -> Option<A>, s: seq<A>, x: A)
    requires g(x) == None || g(x) == Some(x)
    requires forall a :: a in s ==> g(a) == None || g(a) == Some(a)
    ensures multiset(FilterMap(g, s))[x] == if g(x) == Some(x) then multiset(s)[x] else 0
    decreases |s|
  {
    if |s| > 0 {
      var init, last := s[..|s| - 1], s[|s| - 1];
      assert s == init + [last] && last in s;
      FilterCount(g, init, x);
      CountOne(init, last, x);
      FilterMapStep(g, init, last);
      hide FilterMap;
      FilterCountStep(FilterMap(g, init), g(last), last, x);
    }
  }

  lemma FilterCountStep<A>(kept: seq<A>, o: Option<A>, last: A, x: A)
    requires o == None || o == Some(last)
    ensures multiset(kept + Single(o))[x] == multiset(kept)[x] + if o == Some(last) && x == last then 1 else 0
  {
    if o == Some(last) {
      CountOne(kept, last, x);
    } else {
      assert kept + [] == kept;
    }
  }

  lemma CountOne<T>(s: seq<T>, y: T, x: T)
    ensures multiset(s + [y])[x] == multiset(s)[x] + if x == y then 1 else 0
  {
  }

  /** Elements that a filter keeps appear among those of the whole, each at most as often. */
  lemma {:induction false} FilterMapAmong<A, B>(f: A -> Option<B>, g: A -> Option<A>, s: seq<A>)
    requires forall a :: a in s ==> g(a) == None || g(a) == Some(a)
    ensures multiset(FilterMap(f, FilterMap(g, s))) <= multiset(FilterMap(f, s))
    decreases |s|
  {
    if |s| > 0 {
      var init, last := s[..|s| - 1], s[|s| - 1];
      assert s == init + [last] && last in s;
      FilterMapAmong(f, g, init);
      if g(last) == Some(last) {
        FilterMapStep(f, FilterMap(g, init), last);
      } else {
        assert FilterMap(g, s) == FilterMap(g, init);
      }
    }
  }

  lemma {:induction false} AllKept<A, B>(f: A -> Option<B>, s: seq<A>)
    requires forall a :: a in s ==> f(a).Some?
    ensures |FilterMap(f, s)| == |s|
    decreases |s|
  {
    if |s| > 0 {
      assert s[|s| - 1] in s;
      AllKept(f, s[..|s| - 1]);
    }
  }

  lemma FilterMapPair<A, B>(f: A -> Option<B>, a: A, b: A)
    ensures FilterMap(f, [a, b]) == Single(f(a)) + Single(f(b))
  {
    FilterMapStep(f, [], a);
    FilterMapStep(f, [a], b);
    assert [] + [a] == [a] && [a] + [b] == [a, b];
  }
}
