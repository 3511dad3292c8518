/** The close-group shuffle (`spread_close_group`): an in-place partial
    Fisher-Yates pass over the front of a list, driven by an arbitrary chooser. */
module Shuffle {
  import opened Prelude
  import opened Sorting

  function Swap<T>(s: seq<T>, i: nat, j: nat): (r: seq<T>)
    requires i < |s| && j < |s|
    ensures |r| == |s| && r[i] == s[j] && r[j] == s[i]
    ensures forall k :: 0 <= k < |s| && k != i && k != j ==> r[k] == s[k]
  {
    s[i := s[j]][j := s[i]]
  }

  /** The place swapped with place `i`. */
  function Partner(choices: nat -> nat, group: nat, i: nat): (j: nat)
    requires i < group
    ensures i <= j < group
  {
    i + Min(choices(i), group - i - 1)
  }

  /** The shuffle of the first `group` places from place `i` on: `choices(i)`
      answers the chooser's call for place `i`, clipped to the places left. */
  function Spread<T>(s: seq<T>, group: nat, choices: nat -> nat, i: nat): (r: seq<T>)
    requires i <= group <= |s|
    ensures |r| == |s|
    decreases group - i
  {
    if i == group then s
    else Spread(Swap(s, i, Partner(choices, group, i)), group, choices, i + 1)
  }

  lemma SpreadStep<T>(s: seq<T>, group: nat, choices: nat -> nat, i: nat)
    requires i < group <= |s|
    ensures Spread(s, group, choices, i) == Spread(Swap(s, i, Partner(choices, group, i)), group, choices, i + 1)
  {
  }

  /** The in-place form. */
  method SpreadInPlace<T>(peers: array<T>, group: nat, choices: nat -> nat)
    requires group <= peers.Length
    modifies peers
    ensures peers[..] == Spread(old(peers[..]), group, choices, 0)
  {
    for index := 0 to group
      invariant Spread(peers[..], group, choices, index) == Spread(old(peers[..]), group, choices, 0)
    {
      hide Spread;
      var swap := Partner(choices, group, index);
      ghost var before := peers[..];
      SpreadStep(before, group, choices, index);
      peers[index], peers[swap] := peers[swap], peers[index];
      assert peers[..] == Swap(before, index, swap);
    }
  }

  lemma SwapPermutes<T>(s: seq<T>, i: nat, j: nat)
    requires i < |s| && j < |s|
    ensures multiset(Swap(s, i, j)) == multiset(s)
  {
  }

  /** The shuffle permutes ... */
  lemma {:induction false} SpreadPermutes<T>(s: seq<T>, group: nat, choices: nat -> nat, i: nat)
    requires i <= group <= |s|
    ensures multiset(Spread(s, group, choices, i)) == multiset(s)
    decreases group - i
  {
    if i < group {
      hide Spread, Swap, Partner;
      var j := Partner(choices, group, i);
      SpreadStep(s, group, choices, i);
      SwapPermutes(s, i, j);
      SpreadPermutes(Swap(s, i, j), group, choices, i + 1);
    }
  }

  /** ... moves nothing outside the places left ... */
  lemma {:induction false} SpreadFrame<T>(s: seq<T>, group: nat, choices: nat -> nat, i: nat)
    requires i <= group <= |s|
    ensures forall k :: 0 <= k < i || group <= k < |s| ==> Spread(s, group, choices, i)[k] == s[k]
    decreases group - i
  {
    if i < group {
      SpreadFrame(Swap(s, i, Partner(choices, group, i)), group, choices, i + 1);
    }
  }

  /** ... and moves nothing at all when the chooser always answers zero. */
  lemma {:induction false} SpreadZero<T>(s: seq<T>, group: nat, choices: nat -> nat, i: nat)
    requires i <= group <= |s|
    requires forall k :: i <= k < group ==> choices(k) == 0
    ensures Spread(s, group, choices, i) == s
    decreases group - i
  {
    if i < group {
      assert Swap(s, i, i) == s;
      SpreadZero(s, group, choices, i + 1);
    }
  }

  ghost predicate InRange(choices: nat -> nat, i: nat, group: nat) {
    forall k :: i <= k < group ==> choices(k) < group - k
  }

  lemma FirstPlace<T>(s: seq<T>, group: nat, choices: nat -> nat, i: nat)
    requires i < group <= |s| && InRange(choices, i, group)
    ensures i + choices(i) < group && Spread(s, group, choices, i)[i] == s[i + choices(i)]
    ensures Spread(s, group, choices, i) == Spread(Swap(s, i, i + choices(i)), group, choices, i + 1)
  {
    hide Spread;
    assert Partner(choices, group, i) == i + choices(i);
    SpreadStep(s, group, choices, i);
    SpreadFrame(Swap(s, i, i + choices(i)), group, choices, i + 1);
  }

  /** Different in-range answers give different orders ... */
  lemma {:induction false} SpreadInjective<T>(s: seq<T>, group: nat, a: nat -> nat, b: nat -> nat, i: nat)
    requires NoDup(s) && i <= group <= |s|
    requires InRange(a, i, group) && InRange(b, i, group)
    requires Spread(s, group, a, i) == Spread(s, group, b, i)
    ensures forall k :: i <= k < group ==> a(k) == b(k)
    decreases group - i
  {
    if i < group {
      hide Spread, Swap, Partner;
      FirstPlace(s, group, a, i);
      FirstPlace(s, group, b, i);
      assert a(i) == b(i);
      var t := Swap(s, i, i + a(i));
      SwapPermutes(s, i, i + a(i));
      PermutationNoDup(s, t);
      SpreadInjective(t, group, a, b, i + 1);
    }
  }

  /** ... and every order has in-range answers that give it. Together: uniform
      answers give every order of the close group the same share. */
  lemma {:induction false} SpreadSurjective<T>(s: seq<T>, group: nat, r: seq<T>, i: nat) returns (choices: nat -> nat)
    requires i <= group <= |s| == |r|
    requires multiset(r) == multiset(s)
    requires forall k :: 0 <= k < i || group <= k < |s| ==> r[k] == s[k]
    ensures InRange(choices, i, group)
    ensures Spread(s, group, choices, i) == r
    decreases group - i
  {
    if i == group {
      choices := k => 0;
    } else {
      var j := PositionOf(s, r, i, group);
      var t := Swap(s, i, j);
      SwapPermutes(s, i, j);
      hide Spread, Swap;
      var later := SpreadSurjective(t, group, r, i + 1);
      choices := k => if k == i then j - i else later(k);
      SpreadAgrees(t, group, later, choices, i + 1);
      SpreadStep(s, group, choices, i);
    }
  }

  /** Place `i` of `r` is filled from the places `i .. group` of `s`. */
  lemma PositionOf<T>(s: seq<T>, r: seq<T>, i: nat, group: nat) returns (j: nat)
    requires |r| == |s| && i < group <= |s| && multiset(r) == multiset(s)
    requires forall k :: 0 <= k < i || group <= k < |s| ==> r[k] == s[k]
    ensures i <= j < group && s[j] == r[i]
  {
    MiddleMultiset(s, r, i, group);
    assert r[i] == r[i..group][0];
    assert r[i] in multiset(r[i..group]);
    assert r[i] in s[i..group];
    var k :| 0 <= k < |s[i..group]| && s[i..group][k] == r[i];
    j := i + k;
  }

  lemma MiddleMultiset<T>(s: seq<T>, r: seq<T>, i: nat, group: nat)
    requires |r| == |s| && i <= group <= |s| && multiset(r) == multiset(s)
    requires forall k :: 0 <= k < i || group <= k < |s| ==> r[k] == s[k]
    ensures multiset(s[i..group]) == multiset(r[i..group])
  {
    SplitMultiset(s, i, group);
    SplitMultiset(r, i, group);
    assert s[..i] == r[..i] && s[group..] == r[group..];
    Cancel(multiset(s[..i]), multiset(s[group..]), multiset(s[i..group]), multiset(r[i..group]));
  }

  lemma Cancel<T>(a: multiset<T>, b: multiset<T>, x: multiset<T>, y: multiset<T>)
    requires a + x + b == a + y + b
    ensures x == y
  {
    forall e
      ensures x[e] == y[e]
    {
      assert (a + x + b)[e] == (a + y + b)[e];
    }
  }

  lemma SplitMultiset<T>(s: seq<T>, i: nat, j: nat)
    requires i <= j <= |s|
    ensures multiset(s) == multiset(s[..i]) + multiset(s[i..j]) + multiset(s[j..])
  {
    assert s == s[..i] + s[i..j] + s[j..];
  }

  lemma {:induction false} SpreadAgrees<T>(s: seq<T>, group: nat, a: nat -> nat, b: nat -> nat, i: nat)
    requires i <= group <= |s|
    requires forall k :: i <= k < group ==> a(k) == b(k)
    ensures Spread(s, group, a, i) == Spread(s, group, b, i)
    decreases group - i
  {
    if i < group {
      SpreadAgrees(Swap(s, i, Partner(a, group, i)), group, a, b, i + 1);
    }
  }
}
