/** The standard library's stable sort by key, which the engine calls on peers,
    quote indices and fetched records. */
module Sorting {

  predicate Ascending<T>(s: seq<T>, key: T -> nat) {
    forall i, j :: 0 <= i < j < |s| ==> key(s[i]) <= key(s[j])
  }

  predicate Strict<T>(s: seq<T>, key: T -> nat) {
    forall i, j :: 0 <= i < j < |s| ==> key(s[i]) < key(s[j])
  }

  predicate NoDup<T(==)>(s: seq<T>) {
    forall i, j :: 0 <= i < j < |s| ==> s[i] != s[j]
  }

  function Insert<T>(x: T, s: seq<T>, key: T -> nat): seq<T> {
    if s == [] || key(x) <= key(s[0]) then [x] + s
    else [s[0]] + Insert(x, s[1..], key)
  }

  function Sort<T>(s: seq<T>, key: T -> nat): seq<T> {
    if s == [] then [] else Insert(s[0], Sort(s[1..], key), key)
  }

  lemma {:induction false} InsertKeepsElements<T>(x: T, s: seq<T>, key: T -> nat)
    ensures multiset(Insert(x, s, key)) == multiset(s) + multiset{x}
  {
    if s == [] || key(x) <= key(s[0]) {
      assert Insert(x, s, key) == [x] + s;
    } else {
      InsertKeepsElements(x, s[1..], key);
      assert s == [s[0]] + s[1..];
      assert Insert(x, s, key) == [s[0]] + Insert(x, s[1..], key);
    }
  }

  /** Sorting permutes. */
  lemma {:induction false} SortKeepsElements<T>(s: seq<T>, key: T -> nat)
    ensures multiset(Sort(s, key)) == multiset(s)
  {
    if s != [] {
      SortKeepsElements(s[1..], key);
      InsertKeepsElements(s[0], Sort(s[1..], key), key);
      assert s == [s[0]] + s[1..];
    }
  }

  lemma {:induction false} InsertAscends<T>(x: T, s: seq<T>, key: T -> nat)
    requires Ascending(s, key)
    ensures Ascending(Insert(x, s, key), key)
    ensures forall y :: y in Insert(x, s, key) ==> y == x || y in s
  {
    if s == [] || key(x) <= key(s[0]) {
    } else {
      InsertAscends(x, s[1..], key);
      var rest := Insert(x, s[1..], key);
      assert forall j :: 0 <= j < |rest| ==> rest[j] in rest;
      assert forall y :: y in s[1..] ==> key(s[0]) <= key(y);
    }
  }

  /** Sorting sorts. */
  lemma {:induction false} SortAscends<T>(s: seq<T>, key: T -> nat)
    ensures Ascending(Sort(s, key), key)
  {
    if s != [] {
      SortAscends(s[1..], key);
      InsertAscends(s[0], Sort(s[1..], key), key);
    }
  }

  lemma SameElements<T>(a: seq<T>, b: seq<T>)
    requires multiset(a) == multiset(b)
    ensures |a| == |b|
    ensures forall x :: x in a <==> x in b
  {
    assert |multiset(a)| == |a| && |multiset(b)| == |b|;
    forall x
      ensures x in a <==> x in b
    {
      assert x in a <==> x in multiset(a);
      assert x in b <==> x in multiset(b);
    }
  }

  /** What callers usually need. */
  lemma SortContract<T>(s: seq<T>, key: T -> nat)
    ensures Ascending(Sort(s, key), key)
    ensures |Sort(s, key)| == |s|
    ensures forall x :: x in Sort(s, key) <==> x in s
  {
    SortAscends(s, key);
    SortKeepsElements(s, key);
    SameElements(Sort(s, key), s);
  }

  lemma {:induction false} DistinctMultiset<T>(s: seq<T>)
    requires NoDup(s)
    ensures forall x :: x in s ==> multiset(s)[x] == 1
  {
    if s != [] {
      DistinctMultiset(s[1..]);
      assert s == [s[0]] + s[1..];
      assert s[0] !in s[1..];
      assert multiset(s) == multiset{s[0]} + multiset(s[1..]);
    }
  }

  lemma {:induction false} RepeatedMultiset<T>(s: seq<T>, i: nat, j: nat)
    requires i < j < |s| && s[i] == s[j]
    ensures multiset(s)[s[i]] >= 2
  {
    assert s == s[..j] + s[j..];
    assert s[i] in s[..j] && s[j] in s[j..];
    assert multiset(s) == multiset(s[..j]) + multiset(s[j..]);
  }

  /** Sorting keeps a duplicate-free sequence duplicate-free. */
  lemma PermutationNoDup<T>(a: seq<T>, b: seq<T>)
    requires multiset(a) == multiset(b) && NoDup(a)
    ensures NoDup(b)
  {
    DistinctMultiset(a);
    SameElements(a, b);
    forall i, j | 0 <= i < j < |b|
      ensures b[i] != b[j]
    {
      if b[i] == b[j] { RepeatedMultiset(b, i, j); }
    }
  }

  lemma NoDupPermutation<T>(a: seq<T>, b: seq<T>)
    requires NoDup(a) && NoDup(b)
    requires forall x :: x in a <==> x in b
    ensures multiset(a) == multiset(b)
  {
    DistinctMultiset(a);
    DistinctMultiset(b);
    forall x
      ensures multiset(a)[x] == multiset(b)[x]
    {
      assert x in multiset(a) <==> x in a;
      assert x in multiset(b) <==> x in b;
    }
  }

  lemma StrictNoDup<T>(s: seq<T>, key: T -> nat)
    requires Strict(s, key)
    ensures NoDup(s)
  {
  }

  lemma TailMembers<T>(a: seq<T>, key: T -> nat)
    requires a != [] && Strict(a, key)
    ensures forall x :: x in a[1..] <==> x in a && x != a[0]
  {
    assert a == [a[0]] + a[1..];
    assert forall i :: 0 <= i < |a[1..]| ==> a[1..][i] == a[i + 1];
  }

  /** A strictly sorted sequence is determined by its elements. */
  lemma {:induction false} StrictUnique<T>(a: seq<T>, b: seq<T>, key: T -> nat)
    requires Strict(a, key) && Strict(b, key)
    requires forall x :: x in a <==> x in b
    ensures a == b
  {
    assert a == [] || a[0] in a;
    assert b == [] || b[0] in b;
    if a != [] {
      assert a[0] in a && a[0] in b;
      assert b[0] in b && b[0] in a;
      assert key(a[0]) <= key(b[0]) && key(b[0]) <= key(a[0]);
      assert a[0] == b[0];
      TailMembers(a, key);
      TailMembers(b, key);
      StrictUnique(a[1..], b[1..], key);
      assert a == [a[0]] + a[1..] && b == [b[0]] + b[1..];
    }
  }

  lemma SubsetCardinality<T>(a: set<T>, b: set<T>)
    requires a <= b
    ensures |a| <= |b|
    ensures |a| == |b| ==> a == b
  {
    assert b == a + (b - a);
  }

  /** A list without repeats is no longer than a set that holds its elements, and
      as long as one that holds no others. */
  lemma {:induction false} DistinctWithin<T>(s: seq<T>, all: set<T>)
    requires NoDup(s) && forall x :: x in s ==> x in all
    ensures |s| <= |all|
    ensures (forall x :: x in all ==> x in s) ==> |s| == |all|
  {
    if s == [] {
      if forall x :: x in all ==> x in s { assert all == {}; }
    } else {
      assert s[0] in s && forall x :: x in s[1..] ==> x in s && x != s[0];
      DistinctWithin(s[1..], all - {s[0]});
      if forall x :: x in all ==> x in s {
        assert forall x :: x in all - {s[0]} ==> x in s[1..];
      }
    }
  }

  lemma DistinctCardinality<T>(s: seq<T>)
    requires NoDup(s)
    ensures |set x | x in s| == |s|
  {
    DistinctWithin(s, set x | x in s);
  }
}
