/** Sums over finite sets, for the measures of the state machines. */
module Sums {

  ghost function Pick<K>(keys: set<K>): (k: K)
    requires keys != {}
    ensures k in keys
  {
    var k :| k in keys; k
  }

  ghost function SumOver<K(!new)>(keys: set<K>, weight: K -> nat): nat {
    if keys == {} then 0 else weight(Pick(keys)) + SumOver(keys - {Pick(keys)}, weight)
  }

  lemma {:induction false} SumShrinks<K(!new)>(keys: set<K>, before: K -> nat, after: K -> nat)
    requires forall k :: k in keys ==> after(k) <= before(k)
    ensures SumOver(keys, after) <= SumOver(keys, before)
    ensures (exists k :: k in keys && after(k) < before(k)) ==> SumOver(keys, after) < SumOver(keys, before)
  {
    if keys != {} { SumShrinks(keys - {Pick(keys)}, before, after); }
  }

  lemma {:induction false} SumBound<K(!new)>(keys: set<K>, weight: K -> nat, most: nat)
    requires forall k :: k in keys ==> weight(k) <= most
    ensures SumOver(keys, weight) <= most * |keys|
  {
    if keys != {} {
      var rest := keys - {Pick(keys)};
      SumBound(rest, weight, most);
      assert most * (|rest| + 1) == most * |rest| + most;
    }
  }

  /** The order in which a sum is taken does not matter. */
  lemma {:induction false} SumSplit<K(!new)>(keys: set<K>, weight: K -> nat, k: K)
    requires k in keys
    ensures SumOver(keys, weight) == weight(k) + SumOver(keys - {k}, weight)
  {
    var first := Pick(keys);
    if k != first {
      SumSplit(keys - {first}, weight, k);
      SumSplit(keys - {k}, weight, first);
      assert keys - {first} - {k} == keys - {k} - {first};
    }
  }
}
