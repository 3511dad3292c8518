/** Lexicographic order of sequences of numbers, and of sequences of those. */
module Lexicographic {

  predicate LexLess(a: seq<nat>, b: seq<nat>) {
    b != [] && (a == [] || a[0] < b[0] || (a[0] == b[0] && LexLess(a[1..], b[1..])))
  }

  predicate LexLeq(a: seq<nat>, b: seq<nat>) {
    a == b || LexLess(a, b)
  }

  /** The first difference decides. */
  lemma {:induction false} LexAt(a: seq<nat>, b: seq<nat>, k: nat)
    requires k < |a| && k < |b| && a[..k] == b[..k] && a[k] < b[k]
    ensures LexLess(a, b)
  {
    if k > 0 {
      assert a[0] == a[..k][0] && b[0] == b[..k][0];
      assert a[1..][..k - 1] == a[..k][1..] && b[1..][..k - 1] == b[..k][1..];
      LexAt(a[1..], b[1..], k - 1);
    }
  }

  lemma {:induction false} LexIrreflexive(a: seq<nat>)
    ensures !LexLess(a, a)
  {
    if a != [] { LexIrreflexive(a[1..]); }
  }

  lemma {:induction false} LexTransitive(a: seq<nat>, b: seq<nat>, c: seq<nat>)
    requires LexLess(a, b) && LexLess(b, c)
    ensures LexLess(a, c)
  {
    if a != [] && a[0] == b[0] && b[0] == c[0] {
      LexTransitive(a[1..], b[1..], c[1..]);
    }
  }

  lemma {:induction false} LexTotal(a: seq<nat>, b: seq<nat>)
    ensures LexLess(a, b) || a == b || LexLess(b, a)
  {
    if a != [] && b != [] && a[0] == b[0] {
      LexTotal(a[1..], b[1..]);
      assert a == [a[0]] + a[1..] && b == [b[0]] + b[1..];
    }
  }

  // One level up

  predicate LexLessAll(a: seq<seq<nat>>, b: seq<seq<nat>>) {
    b != [] && (a == [] || LexLess(a[0], b[0]) || (a[0] == b[0] && LexLessAll(a[1..], b[1..])))
  }

  lemma {:induction false} LexAllTransitive(a: seq<seq<nat>>, b: seq<seq<nat>>, c: seq<seq<nat>>)
    requires LexLessAll(a, b) && LexLessAll(b, c)
    ensures LexLessAll(a, c)
  {
    if a != [] {
      if LexLess(a[0], b[0]) && LexLess(b[0], c[0]) { LexTransitive(a[0], b[0], c[0]); }
      if a[0] == b[0] && b[0] == c[0] && LexLessAll(a[1..], b[1..]) && LexLessAll(b[1..], c[1..]) {
        LexAllTransitive(a[1..], b[1..], c[1..]);
      }
    }
  }

  lemma {:induction false} LexAllTotal(a: seq<seq<nat>>, b: seq<seq<nat>>)
    ensures LexLessAll(a, b) || a == b || LexLessAll(b, a)
  {
    if a != [] && b != [] {
      LexTotal(a[0], b[0]);
      if a[0] == b[0] {
        LexAllTotal(a[1..], b[1..]);
        assert a == [a[0]] + a[1..] && b == [b[0]] + b[1..];
      }
    }
  }
}
