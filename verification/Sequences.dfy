/** Lists up to reordering: maps, filters, duplicate-freedom, and sorting. Go's unstable library sort
    is represented by an insertion sort; `SortedUnique` says that when ties are equalities every
    sorting algorithm returns the same list, so nothing depends on that choice. */
module Sequences {

  function Map<T, U>(f: T -> U, s: seq<T>): (r: seq<U>)
    ensures |r| == |s|
    ensures forall i :: 0 <= i < |s| ==> r[i] == f(s[i])
  {
    seq(|s|, i requires 0 <= i < |s| => f(s[i]))
  }

  function Filter<T(!new)>(p: T -> bool, s: seq<T>): (r: seq<T>)
    ensures forall x :: x in r <==> x in s && p(x)
    ensures |r| <= |s|
  {
    if s == [] then []
    else
      assert s == [s[0]] + s[1..];
      if p(s[0]) then [s[0]] + Filter(p, s[1..]) else Filter(p, s[1..])
  }

  lemma {:induction false} FilterAppend<T(!new)>(p: T -> bool, s: seq<T>, x: T)
    ensures Filter(p, s + [x]) == if p(x) then Filter(p, s) + [x] else Filter(p, s)
  {
    if s == [] {
      assert s + [x] == [x];
    } else {
      assert (s + [x])[1..] == s[1..] + [x] && (s + [x])[0] == s[0];
      FilterAppend(p, s[1..], x);
    }
  }

  /** Mapping with a function that `p` does not notice. */
  lemma {:induction false} MapFilter<T(!new)>(p: T -> bool, f: T -> T, s: seq<T>)
    requires forall x :: x in s ==> p(f(x)) == p(x)
    ensures Filter(p, Map(f, s)) == Map(f, Filter(p, s))
  {
    if s != [] {
      var init, last := s[..|s| - 1], s[|s| - 1];
      assert s == init + [last];
      MapFilter(p, f, init);
      MapAppend(f, init, last);
      MapAppend(f, Filter(p, init), last);
      FilterAppend(p, init, last);
      FilterAppend(p, Map(f, init), f(last));
    }
  }

  lemma MapPair<T>(f: T -> T, a: T, b: T, s: seq<T>, c: T, t: seq<T>)
    requires f(a) == a && f(b) == c && Map(f, s) == t
    ensures Map(f, [a, b] + s) == [a, c] + t
  {
  }

  lemma {:induction false} FilterPrefix<T(!new)>(p: T -> bool, s: seq<T>, i: nat)
    requires i <= |s|
    ensures Filter(p, s[..i]) <= Filter(p, s)
  {
    if i > 0 {
      var prefix, tail := s[..i], s[1..];
      assert prefix[1..] == tail[..i - 1] && prefix[0] == s[0];
      FilterPrefix(p, tail, i - 1);
    }
  }

  /** Filters an array in place over its own storage, as `s[:0]` with `append` does. */
  method Compact<T(!new)>(a: array<T>, keep: T -> bool) returns (n: nat)
    modifies a
    ensures n <= a.Length
    ensures a[..n] == Filter(keep, old(a[..]))
  {
    n := 0;
    ghost var before := a[..];
    for i := 0 to a.Length
      invariant n <= i
      invariant a[..n] == Filter(keep, before[..i])
      invariant forall k :: i <= k < a.Length ==> a[k] == before[k]
    {
      var x := a[i];
      TakeStep(before, i);
      FilterAppend(keep, before[..i], x);
      ghost var kept := a[..n];
      if keep(x) {
        a[n] := x;
        n := n + 1;
        assert a[..n] == kept + [x];
      }
    }
    assert before[..|before|] == before;
  }

  lemma {:induction false} FilterAll<T(!new)>(p: T -> bool, s: seq<T>)
    requires forall x :: x in s ==> p(x)
    ensures Filter(p, s) == s
  {
    if s != [] {
      assert s == [s[0]] + s[1..];
      FilterAll(p, s[1..]);
    }
  }

  lemma {:induction false} FilterCongruent<T(!new)>(p: T -> bool, q: T -> bool, s: seq<T>)
    requires forall x :: x in s ==> p(x) == q(x)
    ensures Filter(p, s) == Filter(q, s)
  {
    if s != [] {
      assert s[0] in s;
      FilterCongruent(p, q, s[1..]);
    }
  }

  lemma {:induction false} FilterKeys<T(!new), U>(p: T -> bool, key: T -> U, s: seq<T>)
    requires NoDup(Map(key, s))
    ensures NoDup(Map(key, Filter(p, s)))
  {
    if s != [] {
      NoDupCons(Map(key, s));
      assert Map(key, s)[1..] == Map(key, s[1..]);
      FilterKeys(p, key, s[1..]);
      if p(s[0]) {
        var rest := Filter(p, s[1..]);
        assert Map(key, [s[0]] + rest) == [key(s[0])] + Map(key, rest);
        forall i | 0 <= i < |rest| ensures key(rest[i]) != key(s[0]) {
          assert rest[i] in s[1..];
          MapIn(key, s[1..], rest[i]);
        }
        NoDupCons([key(s[0])] + Map(key, rest));
      }
    }
  }

  lemma {:induction false} FilterCount<T(!new)>(p: T -> bool, s: seq<T>, x: T)
    ensures multiset(Filter(p, s))[x] == if p(x) then multiset(s)[x] else 0
  {
    if s != [] {
      assert s == [s[0]] + s[1..];
      FilterCount(p, s[1..], x);
    }
  }

  function Flatten<T>(s: seq<seq<T>>): seq<T> {
    if s == [] then [] else s[0] + Flatten(s[1..])
  }

  lemma {:induction false} FlattenAppend<T>(s: seq<seq<T>>, x: seq<T>)
    ensures Flatten(s + [x]) == Flatten(s) + x
  {
    if s == [] {
      assert s + [x] == [x];
      assert Flatten([x]) == x + Flatten([]);
    } else {
      assert (s + [x])[1..] == s[1..] + [x];
      assert (s + [x])[0] == s[0];
      FlattenAppend(s[1..], x);
    }
  }

  lemma {:induction false} FlattenMember<T>(s: seq<seq<T>>, x: T)
    ensures x in Flatten(s) <==> exists i :: 0 <= i < |s| && x in s[i]
  {
    if s != [] {
      FlattenMember(s[1..], x);
      if x in Flatten(s[1..]) {
        var i :| 0 <= i < |s[1..]| && x in s[1..][i];
        assert x in s[i + 1];
      }
      if exists i :: 0 < i < |s| && x in s[i] {
        var i :| 0 < i < |s| && x in s[i];
        assert x in s[1..][i - 1];
      }
    }
  }

  /** No element occurs in two of the lists. */
  ghost predicate Disjoint<T(!new)>(s: seq<seq<T>>) {
    forall i, j, x :: 0 <= i < j < |s| && x in s[i] ==> x !in s[j]
  }

  lemma DisjointCons<T(!new)>(s: seq<seq<T>>)
    requires s != []
    ensures Disjoint(s) <==> Disjoint(s[1..]) && forall x :: x in s[0] ==> x !in Flatten(s[1..])
  {
    var t := s[1..];
    forall x ensures x in Flatten(t) <==> exists i :: 0 <= i < |t| && x in t[i] {
      FlattenMember(t, x);
    }
    assert forall k :: 0 <= k < |t| ==> t[k] == s[k + 1];
    assert forall k :: 0 < k < |s| ==> s[k] == t[k - 1];
  }

  /** A concatenation is free of duplicates exactly when its parts are and no two of them meet. */
  lemma {:induction false} FlattenNoDup<T(!new)>(s: seq<seq<T>>)
    ensures NoDup(Flatten(s)) <==> Disjoint(s) && forall i :: 0 <= i < |s| ==> NoDup(s[i])
  {
    if s != [] {
      var t := s[1..];
      FlattenNoDup(t);
      DisjointCons(s);
      NoDupConcat(s[0], Flatten(t));
      assert forall k :: 0 <= k < |t| ==> t[k] == s[k + 1];
      assert forall k :: 0 < k < |s| ==> s[k] == t[k - 1];
    }
  }

  ghost predicate NoDup<T>(s: seq<T>) {
    forall i, j :: 0 <= i < j < |s| ==> s[i] != s[j]
  }

  lemma {:induction false} NoDupCount<T>(s: seq<T>)
    ensures NoDup(s) <==> forall x :: x in multiset(s) ==> multiset(s)[x] == 1
  {
    if s != [] {
      var t := s[1..];
      NoDupCount(t);
      NoDupCons(s);
      assert s == [s[0]] + t;
      assert multiset(s) == multiset{s[0]} + multiset(t);
      if s[0] in t {
        assert multiset(s)[s[0]] >= 2;
      } else {
        forall x | x in multiset(t) ensures multiset(s)[x] == multiset(t)[x] && x in multiset(s) {}
      }
    }
  }

  lemma NoDupCons<T>(s: seq<T>)
    requires s != []
    ensures NoDup(s) <==> s[0] !in s[1..] && NoDup(s[1..])
  {
    var t := s[1..];
    assert forall k :: 0 <= k < |t| ==> t[k] == s[k + 1];
    assert forall k :: 0 < k < |s| ==> s[k] == t[k - 1];
  }

  /** Duplicate-freedom does not depend on the order of a list. */
  lemma NoDupPermutation<T>(a: seq<T>, b: seq<T>)
    requires multiset(a) == multiset(b)
    ensures NoDup(a) <==> NoDup(b)
  {
    NoDupCount(a);
    NoDupCount(b);
  }

  lemma SameMembers<T>(a: seq<T>, b: seq<T>)
    requires multiset(a) == multiset(b)
    ensures forall x :: x in a <==> x in b
  {
    forall x ensures x in a <==> x in b {
      assert x in a <==> x in multiset(a);
      assert x in b <==> x in multiset(b);
    }
  }

  lemma NoDupFilter<T(!new)>(p: T -> bool, s: seq<T>)
    requires NoDup(s)
    ensures NoDup(Filter(p, s))
  {
    NoDupCount(s);
    NoDupCount(Filter(p, s));
    forall x | x in multiset(Filter(p, s)) ensures multiset(Filter(p, s))[x] == 1 {
      FilterCount(p, s, x);
      assert x in Filter(p, s);
      assert x in multiset(s);
    }
  }

  lemma NoDupAppend<T>(s: seq<T>, x: T)
    ensures NoDup(s + [x]) <==> NoDup(s) && x !in s
  {
    var t := s + [x];
    assert forall k :: 0 <= k < |s| ==> t[k] == s[k];
    assert t[|s|] == x;
  }

  lemma NoDupConcat<T(!new)>(a: seq<T>, b: seq<T>)
    ensures NoDup(a + b) <==> NoDup(a) && NoDup(b) && forall x :: x in b ==> x !in a
  {
    if b == [] {
      assert a + b == a;
    } else {
      var init, last := b[..|b| - 1], b[|b| - 1];
      assert b == init + [last];
      assert a + b == (a + init) + [last];
      NoDupConcat(a, init);
      NoDupAppend(a + init, last);
      NoDupAppend(init, last);
    }
  }

  lemma NoDupPrefix<T>(a: seq<T>, b: seq<T>)
    requires a <= b && NoDup(b)
    ensures NoDup(a)
  {
    assert forall k :: 0 <= k < |a| ==> a[k] == b[k];
  }

  lemma AppendMembers<T(!new)>(s: seq<T>, y: T)
    ensures forall x :: x in s + [y] <==> x in s || x == y
  {
  }

  lemma PrefixMembers<T(!new)>(a: seq<T>, b: seq<T>)
    requires a <= b
    ensures forall x :: x in a ==> x in b
  {
    assert forall k :: 0 <= k < |a| ==> a[k] == b[k];
  }

  lemma MapPrefixOf<T, U>(f: T -> U, a: seq<T>, b: seq<T>)
    requires a <= b
    ensures Map(f, a) <= Map(f, b)
  {
  }

  lemma FilterStep<T(!new), U>(p: T -> bool, f: T -> U, s: seq<T>, i: nat)
    requires i < |s|
    ensures Filter(p, s[..i + 1]) == if p(s[i]) then Filter(p, s[..i]) + [s[i]] else Filter(p, s[..i])
    ensures Map(f, Filter(p, s[..i + 1])) ==
            if p(s[i]) then Map(f, Filter(p, s[..i])) + [f(s[i])] else Map(f, Filter(p, s[..i]))
  {
    TakeStep(s, i);
    FilterAppend(p, s[..i], s[i]);
  }

  /** Inserting in the middle of a concatenation. */
  lemma Splice<T>(a: seq<T>, middle: seq<T>, b: seq<T>)
    ensures (a + b)[..|a|] + middle + (a + b)[|a|..] == a + middle + b
  {
  }

  /** The list without its element at `i`. */
  function RemoveAt<T>(s: seq<T>, i: nat): (r: seq<T>)
    requires i < |s|
    ensures |r| == |s| - 1
  {
    s[..i] + s[i + 1..]
  }

  lemma RemoveAtMultiset<T>(s: seq<T>, i: nat)
    requires i < |s|
    ensures multiset(s) == multiset(RemoveAt(s, i)) + multiset{s[i]}
  {
    assert s == s[..i] + [s[i]] + s[i + 1..];
  }

  lemma RemovedMembers<T(!new)>(s: seq<T>, i: nat)
    requires i < |s|
    ensures forall x :: x in s <==> x == s[i] || x in RemoveAt(s, i)
    ensures NoDup(s) ==> NoDup(RemoveAt(s, i)) && s[i] !in RemoveAt(s, i)
  {
    var r := RemoveAt(s, i);
    assert s == s[..i] + [s[i]] + s[i + 1..];
    assert forall k :: 0 <= k < |r| ==> r[k] == s[if k < i then k else k + 1];
  }

  lemma MapRemoveAt<T, U>(f: T -> U, s: seq<T>, i: nat)
    requires i < |s|
    ensures Map(f, RemoveAt(s, i)) == RemoveAt(Map(f, s), i)
  {
  }

  lemma MapMember<T, U>(f: T -> U, s: seq<T>, y: U)
    ensures y in Map(f, s) <==> exists i :: 0 <= i < |s| && f(s[i]) == y
  {
    if y in Map(f, s) {
      var i :| 0 <= i < |s| && Map(f, s)[i] == y;
      assert f(s[i]) == y;
    }
    if exists i :: 0 <= i < |s| && f(s[i]) == y {
      var i :| 0 <= i < |s| && f(s[i]) == y;
      assert Map(f, s)[i] == y;
    }
  }

  lemma MapIn<T, U>(f: T -> U, s: seq<T>, x: T)
    requires x in s
    ensures f(x) in Map(f, s)
  {
    var i :| 0 <= i < |s| && s[i] == x;
    assert Map(f, s)[i] == f(x);
  }

  lemma MapOrigin<T, U>(f: T -> U, s: seq<T>, y: U) returns (x: T)
    requires y in Map(f, s)
    ensures x in s && f(x) == y
  {
    var i :| 0 <= i < |s| && Map(f, s)[i] == y;
    x := s[i];
  }

  lemma MapConcat<T, U>(f: T -> U, a: seq<T>, b: seq<T>)
    ensures Map(f, a + b) == Map(f, a) + Map(f, b)
  {
  }

  lemma MapCompose<T, U, V>(f: T -> U, g: U -> V, h: T -> V, s: seq<T>)
    requires forall x :: x in s ==> g(f(x)) == h(x)
    ensures Map(g, Map(f, s)) == Map(h, s)
  {
  }

  lemma MapCongruent<T, U>(f: T -> U, g: T -> U, s: seq<T>)
    requires forall x :: x in s ==> f(x) == g(x)
    ensures Map(f, s) == Map(g, s)
  {
  }

  lemma MapAppend<T, U>(f: T -> U, s: seq<T>, x: T)
    ensures Map(f, s + [x]) == Map(f, s) + [f(x)]
  {
  }

  lemma MapFixed<T>(f: T -> T, s: seq<T>)
    requires forall x :: x in s ==> f(x) == x
    ensures Map(f, s) == s
  {
  }

  lemma TakeStep<T>(s: seq<T>, i: nat)
    requires i < |s|
    ensures s[..i + 1] == s[..i] + [s[i]]
  {
  }

  lemma MapPrefix<T, U>(f: T -> U, s: seq<T>, i: nat)
    requires i < |s|
    ensures Map(f, s[..i + 1]) == Map(f, s[..i]) + [f(s[i])]
  {
  }

  /** Two lists that agree up to order in one view agree up to order in every coarser view. */
  lemma {:induction false} MapThrough<T, V, W>(view: T -> V, f: T -> W, a: seq<T>, b: seq<T>)
    requires multiset(Map(view, a)) == multiset(Map(view, b))
    requires forall x, y :: x in a && y in b && view(x) == view(y) ==> f(x) == f(y)
    ensures multiset(Map(f, a)) == multiset(Map(f, b))
    decreases |a|
  {
    if a == [] {
      assert |multiset(Map(view, b))| == |b|;
      assert b == [];
    } else {
      var j := Partner(view, a, b);
      var a', b' := RemoveAt(a, 0), RemoveAt(b, j);
      RemoveBoth(view, a, b, j);
      MapThrough(view, f, a', b');
      MapRemoveAt(f, a, 0);
      MapRemoveAt(f, b, j);
      RemoveAtMultiset(Map(f, a), 0);
      RemoveAtMultiset(Map(f, b), j);
    }
  }

  lemma Partner<T, V>(view: T -> V, a: seq<T>, b: seq<T>) returns (j: nat)
    requires a != []
    requires multiset(Map(view, a)) == multiset(Map(view, b))
    ensures j < |b| && view(b[j]) == view(a[0])
  {
    assert view(a[0]) == Map(view, a)[0];
    assert view(a[0]) in multiset(Map(view, a));
    assert view(a[0]) in Map(view, b);
    MapMember(view, b, view(a[0]));
    j :| 0 <= j < |b| && view(b[j]) == view(a[0]);
  }

  lemma RemoveOne<T>(s: seq<T>, i: nat)
    requires i < |s|
    ensures multiset(RemoveAt(s, i)) == multiset(s) - multiset{s[i]}
    ensures forall x :: x in RemoveAt(s, i) ==> x in s
  {
    RemoveAtMultiset(s, i);
  }

  lemma RemoveBoth<T, V>(view: T -> V, a: seq<T>, b: seq<T>, j: nat)
    requires a != [] && j < |b| && view(b[j]) == view(a[0])
    requires multiset(Map(view, a)) == multiset(Map(view, b))
    ensures multiset(Map(view, RemoveAt(a, 0))) == multiset(Map(view, RemoveAt(b, j)))
    ensures forall x :: x in RemoveAt(a, 0) ==> x in a
    ensures forall x :: x in RemoveAt(b, j) ==> x in b
  {
    MapRemoveAt(view, a, 0);
    MapRemoveAt(view, b, j);
    RemoveOne(Map(view, a), 0);
    RemoveOne(Map(view, b), j);
    RemoveOne(a, 0);
    RemoveOne(b, j);
  }

  /** Every element on one side has a partner with the same view on the other. */
  lemma SameViews<T, V>(view: T -> V, a: seq<T>, b: seq<T>, x: T)
    requires multiset(Map(view, a)) == multiset(Map(view, b)) && x in a
    ensures exists y :: y in b && view(y) == view(x)
  {
    var i :| 0 <= i < |a| && a[i] == x;
    assert Map(view, a)[i] == view(x);
    assert view(x) in multiset(Map(view, a));
    assert view(x) in Map(view, b);
    MapMember(view, b, view(x));
    var j :| 0 <= j < |b| && view(b[j]) == view(x);
    assert b[j] in b;
  }

  lemma MapPermutation<T, U>(f: T -> U, a: seq<T>, b: seq<T>)
    requires multiset(a) == multiset(b)
    ensures multiset(Map(f, a)) == multiset(Map(f, b))
  {
    var id := (x: T) => x;
    assert Map(id, a) == a && Map(id, b) == b;
    MapThrough(id, f, a, b);
  }

  function BagOf<T>(s: seq<T>): multiset<T> { multiset(s) }

  lemma {:induction false} FlattenMultiset<T>(a: seq<seq<T>>, b: seq<seq<T>>)
    requires multiset(Map(BagOf<T>, a)) == multiset(Map(BagOf<T>, b))
    ensures multiset(Flatten(a)) == multiset(Flatten(b))
    decreases |a|
  {
    if a == [] {
      assert |multiset(Map(BagOf<T>, b))| == |b|;
      assert b == [];
    } else {
      var j := Partner(BagOf<T>, a, b);
      RemoveBoth(BagOf<T>, a, b, j);
      FlattenMultiset(RemoveAt(a, 0), RemoveAt(b, j));
      FlattenRemoveAt(a, 0);
      FlattenRemoveAt(b, j);
    }
  }

  lemma {:induction false} FlattenRemoveAt<T>(s: seq<seq<T>>, i: nat)
    requires i < |s|
    ensures multiset(Flatten(s)) == multiset(s[i]) + multiset(Flatten(RemoveAt(s, i)))
  {
    var rest := RemoveAt(s, i);
    if i == 0 {
      assert rest == s[1..];
    } else {
      FlattenRemoveAt(s[1..], i - 1);
      assert s[1..][i - 1] == s[i];
      assert rest[0] == s[0];
      assert rest[1..] == RemoveAt(s[1..], i - 1);
    }
  }

  /** The index of the first element satisfying `p`, or the length of the list. */
  function FindFirst<T>(p: T -> bool, s: seq<T>): (i: nat)
    ensures i <= |s| && (i < |s| ==> p(s[i]))
    ensures forall k :: 0 <= k < i ==> !p(s[k])
  {
    if s == [] || p(s[0]) then 0 else 1 + FindFirst(p, s[1..])
  }

  lemma FindFirstIs<T>(p: T -> bool, s: seq<T>, i: nat)
    requires i <= |s| && (i < |s| ==> p(s[i])) && forall k :: 0 <= k < i ==> !p(s[k])
    ensures FindFirst(p, s) == i
  {
  }

  /******* Sorting *******/

  /** A strict weak order: what a comparison function handed to `slices.SortFunc` must be. */
  ghost predicate WeakOrder<T(!new)>(before: (T, T) -> bool) {
    && (forall x, y :: before(x, y) ==> !before(y, x))
    && (forall x, y, z :: !before(x, y) && !before(y, z) ==> !before(x, z))
  }

  ghost predicate Sorted<T>(before: (T, T) -> bool, s: seq<T>) {
    forall i, j :: 0 <= i < j < |s| ==> !before(s[j], s[i])
  }

  /** On the elements of `s`, a tie is an equality. */
  ghost predicate TiesAreEqual<T>(before: (T, T) -> bool, s: seq<T>) {
    forall x, y :: x in s && y in s && !before(x, y) && !before(y, x) ==> x == y
  }

  function Insert<T>(before: (T, T) -> bool, x: T, s: seq<T>): (r: seq<T>)
    ensures multiset(r) == multiset{x} + multiset(s)
  {
    if s == [] || !before(s[0], x) then [x] + s
    else
      assert s == [s[0]] + s[1..];
      [s[0]] + Insert(before, x, s[1..])
  }

  function Sort<T>(before: (T, T) -> bool, s: seq<T>): (r: seq<T>)
    ensures multiset(r) == multiset(s)
  {
    if s == [] then []
    else
      assert s == [s[0]] + s[1..];
      Insert(before, s[0], Sort(before, s[1..]))
  }

  lemma ConsSorted<T(!new)>(before: (T, T) -> bool, x: T, s: seq<T>)
    requires Sorted(before, s) && forall y :: y in s ==> !before(y, x)
    ensures Sorted(before, [x] + s)
  {
  }

  lemma HeadFirst<T(!new)>(before: (T, T) -> bool, s: seq<T>)
    requires s != [] && WeakOrder(before) && Sorted(before, s)
    ensures forall y :: y in s ==> !before(y, s[0])
  {
    forall y | y in s ensures !before(y, s[0]) {
      var k :| 0 <= k < |s| && s[k] == y;
    }
  }

  lemma {:induction false} InsertSorted<T(!new)>(before: (T, T) -> bool, x: T, s: seq<T>)
    requires WeakOrder(before) && Sorted(before, s)
    ensures Sorted(before, Insert(before, x, s))
  {
    if s == [] {
    } else if !before(s[0], x) {
      HeadFirst(before, s);
      ConsSorted(before, x, s);
    } else {
      var u := Insert(before, x, s[1..]);
      SortedTail(before, s);
      InsertSorted(before, x, s[1..]);
      HeadFirst(before, s);
      forall y | y in u ensures !before(y, s[0]) {
        assert y in multiset(u);
        assert y == x || y in multiset(s[1..]);
      }
      ConsSorted(before, s[0], u);
    }
  }

  lemma {:induction false} SortSorted<T(!new)>(before: (T, T) -> bool, s: seq<T>)
    requires WeakOrder(before)
    ensures Sorted(before, Sort(before, s))
  {
    if s != [] {
      SortSorted(before, s[1..]);
      InsertSorted(before, s[0], Sort(before, s[1..]));
    }
  }

  /** A list has one sorted arrangement when ties are equalities: the result of any correct sort of
      any reordering of the input. */
  lemma {:induction false} SortedUnique<T(!new)>(before: (T, T) -> bool, a: seq<T>, b: seq<T>)
    requires multiset(a) == multiset(b)
    requires Sorted(before, a) && Sorted(before, b) && TiesAreEqual(before, a)
    ensures a == b
    decreases |a|
  {
    assert |multiset(a)| == |a| && |multiset(b)| == |b|;
    if a != [] {
      SortedHeads(before, a, b);
      assert a == [a[0]] + a[1..] && b == [b[0]] + b[1..];
      assert multiset(a[1..]) == multiset(a) - multiset{a[0]};
      assert multiset(b[1..]) == multiset(b) - multiset{b[0]};
      SortedTail(before, a);
      SortedTail(before, b);
      SortedUnique(before, a[1..], b[1..]);
    }
  }

  lemma SortedHeads<T>(before: (T, T) -> bool, a: seq<T>, b: seq<T>)
    requires multiset(a) == multiset(b) && a != [] && b != []
    requires Sorted(before, a) && Sorted(before, b) && TiesAreEqual(before, a)
    ensures a[0] == b[0]
  {
    SameMembers(a, b);
    assert a[0] in a && b[0] in b;
    var i :| 0 <= i < |b| && b[i] == a[0];
    var j :| 0 <= j < |a| && a[j] == b[0];
    if i > 0 && j > 0 {
      assert !before(b[i], b[0]) && !before(a[j], a[0]);
    }
  }

  lemma SortedTail<T>(before: (T, T) -> bool, s: seq<T>)
    requires s != [] && Sorted(before, s)
    ensures Sorted(before, s[1..])
    ensures TiesAreEqual(before, s) ==> TiesAreEqual(before, s[1..])
  {
    var t := s[1..];
    forall i, j | 0 <= i < j < |t| ensures !before(t[j], t[i]) {
      assert t[j] == s[j + 1] && t[i] == s[i + 1];
    }
  }

  /** Sorting forgets the order of its input. */
  lemma SortPermutation<T(!new)>(before: (T, T) -> bool, a: seq<T>, b: seq<T>)
    requires WeakOrder(before) && TiesAreEqual(before, a)
    requires multiset(a) == multiset(b)
    ensures Sort(before, a) == Sort(before, b)
  {
    SortSorted(before, a);
    SortSorted(before, b);
    SameMembers(Sort(before, a), a);
    SortedUnique(before, Sort(before, a), Sort(before, b));
  }

  /** Sorting leaves a sorted list alone. */
  lemma SortOfSorted<T(!new)>(before: (T, T) -> bool, s: seq<T>)
    requires WeakOrder(before) && Sorted(before, s) && TiesAreEqual(before, s)
    ensures Sort(before, s) == s
  {
    SortSorted(before, s);
    SortedUnique(before, s, Sort(before, s));
  }

  lemma SortMembers<T>(before: (T, T) -> bool, s: seq<T>)
    ensures forall x :: x in Sort(before, s) <==> x in s
    ensures |Sort(before, s)| == |s|
  {
    SameMembers(Sort(before, s), s);
    assert |multiset(s)| == |s| && |multiset(Sort(before, s))| == |Sort(before, s)|;
  }
}
